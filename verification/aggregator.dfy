/**
 * The balance aggregator of supabase/functions/calculate-settlements/index.ts
 * (lines 99-129): one signed net balance per user, folded from the group's
 * expenses, participant shares and settled transfers.
 *
 * `Net` is the reference definition of a user's position; `Journal` is the
 * stream of postings the handler's three `forEach` loops apply to its `Map`;
 * `AggregateBalances` is those loops, proved to produce `BalancesOf`.
 */
module Aggregator {
  import opened Ledger
  import opened GroupBy

  /** Sum of the expenses `u` paid for. */
  function Paid(es: seq<ExpenseRow>, u: UserId): real
  {
    if es == [] then 0.0
    else Paid(es[..|es| - 1], u) + (if es[|es| - 1].paidBy == u then es[|es| - 1].amount else 0.0)
  }

  /** Sum of the shares `u` owes. */
  function Owed(ss: seq<ShareRow>, u: UserId): real
  {
    if ss == [] then 0.0
    else Owed(ss[..|ss| - 1], u) + (if ss[|ss| - 1].userId == u then ss[|ss| - 1].amountOwed else 0.0)
  }

  /** Sum of the settled transfers `u` made. */
  function Sent(ts: seq<TransferRow>, u: UserId): real
  {
    if ts == [] then 0.0
    else Sent(ts[..|ts| - 1], u) + (if ts[|ts| - 1].fromUser == u then ts[|ts| - 1].amount else 0.0)
  }

  /** Sum of the settled transfers `u` received. */
  function Received(ts: seq<TransferRow>, u: UserId): real
  {
    if ts == [] then 0.0
    else Received(ts[..|ts| - 1], u) + (if ts[|ts| - 1].toUser == u then ts[|ts| - 1].amount else 0.0)
  }

  /** A user's exact net position: paid - owed + transfers made - transfers received. */
  function Net(l: Snapshot, u: UserId): real
  {
    Paid(l.expenses, u) - Owed(l.shares, u) + Sent(l.transfers, u) - Received(l.transfers, u)
  }

  function TotalSpent(es: seq<ExpenseRow>): real
  {
    if es == [] then 0.0 else TotalSpent(es[..|es| - 1]) + es[|es| - 1].amount
  }

  function TotalOwed(ss: seq<ShareRow>): real
  {
    if ss == [] then 0.0 else TotalOwed(ss[..|ss| - 1]) + ss[|ss| - 1].amountOwed
  }

  /** Each expense credits its payer (line 105). */
  function ExpensePostings(es: seq<ExpenseRow>): seq<Posting>
  {
    if es == [] then []
    else ExpensePostings(es[..|es| - 1]) + [Posting(es[|es| - 1].paidBy, es[|es| - 1].amount)]
  }

  /** Each share debits its participant (line 111). */
  function SharePostings(ss: seq<ShareRow>): seq<Posting>
  {
    if ss == [] then []
    else SharePostings(ss[..|ss| - 1]) + [Posting(ss[|ss| - 1].userId, -ss[|ss| - 1].amountOwed)]
  }

  /** Each settled transfer credits its sender, then debits its receiver (lines 117-122). */
  function TransferPostings(ts: seq<TransferRow>): seq<Posting>
  {
    if ts == [] then []
    else
      var t := ts[|ts| - 1];
      TransferPostings(ts[..|ts| - 1]) + [Posting(t.fromUser, t.amount), Posting(t.toUser, -t.amount)]
  }

  /** Every posting, in the order the handler applies them. */
  function Journal(l: Snapshot): seq<Posting>
  {
    ExpensePostings(l.expenses) + SharePostings(l.shares) + TransferPostings(l.transfers)
  }

  /** The users that get a balance, in the order the `Map` first saw them. */
  function UsersSeen(l: Snapshot): seq<UserId>
  {
    KeysOf(Journal(l))
  }

  /**
   * `parseFloat(x.toFixed(2))` expressed in cents: the nearest whole number
   * of cents, halves rounded away from zero.
   */
  function RoundCents(x: real): (c: int)
    ensures x >= 0.0 ==> c as real - 0.5 <= x * 100.0 < c as real + 0.5
    ensures x < 0.0 ==> c as real - 0.5 < x * 100.0 <= c as real + 0.5
  {
    if x >= 0.0 then (x * 100.0 + 0.5).Floor else -((-x) * 100.0 + 0.5).Floor
  }

  /** The handler's `balanceArray`: one rounded entry per user seen. */
  function BalancesOf(l: Snapshot): seq<Balance>
  {
    var us := UsersSeen(l);
    seq(|us|, k requires 0 <= k < |us| => Balance(us[k], RoundCents(Net(l, us[k]))))
  }

  /** `acc` and `order` are the `Map` a loop has built from `posted`. */
  ghost predicate Tracks(acc: map<UserId, real>, order: seq<UserId>, posted: seq<Posting>)
  {
    && order == KeysOf(posted)
    && (forall u :: u in acc <==> u in order)
    && (forall u :: Get(acc, u) == SumFor(posted, u))
  }

  /** `balances.set(u, (balances.get(u) || 0) + delta)` */
  method Post(acc: map<UserId, real>, order: seq<UserId>, u: UserId, delta: real, ghost posted: seq<Posting>)
    returns (acc': map<UserId, real>, order': seq<UserId>)
    requires Tracks(acc, order, posted)
    ensures Tracks(acc', order', posted + [Posting(u, delta)])
  {
    var current := Get(acc, u);
    order' := if u in acc then order else order + [u];
    acc' := acc[u := current + delta];
    PostStep(posted, Posting(u, delta));
  }

  /** `expenses?.forEach(...)`, lines 103-106: credit each payer. */
  method PostExpenses(acc: map<UserId, real>, order: seq<UserId>, es: seq<ExpenseRow>, ghost posted: seq<Posting>)
    returns (acc': map<UserId, real>, order': seq<UserId>)
    requires Tracks(acc, order, posted)
    ensures Tracks(acc', order', posted + ExpensePostings(es))
  {
    acc', order' := acc, order;
    var k := 0;
    assert posted + ExpensePostings(es[..0]) == posted;
    while k < |es|
      invariant 0 <= k <= |es|
      invariant Tracks(acc', order', posted + ExpensePostings(es[..k]))
    {
      ghost var done := ExpensePostings(es[..k]);
      acc', order' := Post(acc', order', es[k].paidBy, es[k].amount, posted + done);
      assert ExpensePostings(es[..k + 1]) == done + [Posting(es[k].paidBy, es[k].amount)] by {
        assert es[..k + 1][..k] == es[..k];
      }
      assert posted + done + [Posting(es[k].paidBy, es[k].amount)]
          == posted + (done + [Posting(es[k].paidBy, es[k].amount)]);
      k := k + 1;
    }
    assert es[..k] == es;
  }

  /** `participants?.forEach(...)`, lines 109-112: debit each participant. */
  method PostShares(acc: map<UserId, real>, order: seq<UserId>, ss: seq<ShareRow>, ghost posted: seq<Posting>)
    returns (acc': map<UserId, real>, order': seq<UserId>)
    requires Tracks(acc, order, posted)
    ensures Tracks(acc', order', posted + SharePostings(ss))
  {
    acc', order' := acc, order;
    var k := 0;
    assert posted + SharePostings(ss[..0]) == posted;
    while k < |ss|
      invariant 0 <= k <= |ss|
      invariant Tracks(acc', order', posted + SharePostings(ss[..k]))
    {
      ghost var done := SharePostings(ss[..k]);
      var share := ss[k];
      acc', order' := Post(acc', order', share.userId, -share.amountOwed, posted + done);
      ghost var debit := Posting(share.userId, -share.amountOwed);
      assert SharePostings(ss[..k + 1]) == done + [debit] by {
        assert ss[..k + 1][..k] == ss[..k];
      }
      assert posted + done + [debit] == posted + (done + [debit]);
      k := k + 1;
    }
    assert ss[..k] == ss;
  }

  /** The body of the transfer loop, lines 117-122: credit the sender, then debit the receiver. */
  method PostTransfer(acc: map<UserId, real>, order: seq<UserId>, t: TransferRow, ghost posted: seq<Posting>)
    returns (acc': map<UserId, real>, order': seq<UserId>)
    requires Tracks(acc, order, posted)
    ensures Tracks(acc', order', posted + TransferPair(t))
  {
    ghost var credit := Posting(t.fromUser, t.amount);
    acc', order' := Post(acc, order, t.fromUser, t.amount, posted);
    acc', order' := Post(acc', order', t.toUser, -t.amount, posted + [credit]);
    assert posted + [credit] + [Posting(t.toUser, -t.amount)] == posted + TransferPair(t);
  }

  /** `settledSettlements?.forEach(...)`, lines 115-123: credit the sender, debit the receiver. */
  method PostTransfers(acc: map<UserId, real>, order: seq<UserId>, ts: seq<TransferRow>, ghost posted: seq<Posting>)
    returns (acc': map<UserId, real>, order': seq<UserId>)
    requires Tracks(acc, order, posted)
    ensures Tracks(acc', order', posted + TransferPostings(ts))
  {
    acc', order' := acc, order;
    var k := 0;
    assert posted + TransferPostings(ts[..0]) == posted;
    while k < |ts|
      invariant 0 <= k <= |ts|
      invariant Tracks(acc', order', posted + TransferPostings(ts[..k]))
    {
      ghost var done := TransferPostings(ts[..k]);
      acc', order' := PostTransfer(acc', order', ts[k], posted + done);
      assert TransferPostings(ts[..k + 1]) == done + TransferPair(ts[k]) by {
        assert ts[..k + 1][..k] == ts[..k];
      }
      assert posted + done + TransferPair(ts[k]) == posted + (done + TransferPair(ts[k]));
      k := k + 1;
    }
    assert ts[..k] == ts;
  }

  /**
   * The handler's aggregation (lines 99-129): the three loops over one `Map`,
   * then one rounded entry per key, in the `Map`'s key order.
   */
  method AggregateBalances(l: Snapshot) returns (balances: seq<Balance>)
    ensures balances == BalancesOf(l)
  {
    var acc: map<UserId, real> := map[];
    var order: seq<UserId> := [];
    ghost var ep, sp := ExpensePostings(l.expenses), SharePostings(l.shares);
    acc, order := PostExpenses(acc, order, l.expenses, []);
    assert [] + ep == ep;
    acc, order := PostShares(acc, order, l.shares, ep);
    acc, order := PostTransfers(acc, order, l.transfers, ep + sp);
    assert Tracks(acc, order, Journal(l));

    balances := seq(|order|, i requires 0 <= i < |order| && order[i] in acc =>
      Balance(order[i], RoundCents(acc[order[i]])));
    forall i | 0 <= i < |order| ensures balances[i] == BalancesOf(l)[i] {
      JournalNet(l, order[i]);
    }
  }

  lemma {:induction false} ExpensePostingsSum(es: seq<ExpenseRow>, u: UserId)
    ensures SumFor(ExpensePostings(es), u) == Paid(es, u)
    ensures PostedTotal(ExpensePostings(es)) == TotalSpent(es)
  {
    if es != [] {
      ExpensePostingsSum(es[..|es| - 1], u);
      PostStep(ExpensePostings(es[..|es| - 1]), Posting(es[|es| - 1].paidBy, es[|es| - 1].amount));
    }
  }

  lemma {:induction false} SharePostingsSum(ss: seq<ShareRow>, u: UserId)
    ensures SumFor(SharePostings(ss), u) == -Owed(ss, u)
    ensures PostedTotal(SharePostings(ss)) == -TotalOwed(ss)
  {
    if ss != [] {
      SharePostingsSum(ss[..|ss| - 1], u);
      PostStep(SharePostings(ss[..|ss| - 1]), Posting(ss[|ss| - 1].userId, -ss[|ss| - 1].amountOwed));
    }
  }

  /** The two postings of one transfer. */
  function TransferPair(t: TransferRow): seq<Posting>
  {
    [Posting(t.fromUser, t.amount), Posting(t.toUser, -t.amount)]
  }

  /** One transfer credits its sender and debits its receiver, posting nothing in total. */
  lemma TransferPairSum(t: TransferRow, u: UserId)
    ensures SumFor(TransferPair(t), u)
         == (if t.fromUser == u then t.amount else 0.0) - (if t.toUser == u then t.amount else 0.0)
    ensures PostedTotal(TransferPair(t)) == 0.0
    ensures PostedKeys(TransferPair(t)) == {t.fromUser, t.toUser}
  {
    var p, q := Posting(t.fromUser, t.amount), Posting(t.toUser, -t.amount);
    assert TransferPair(t) == [p] + [q];
    PostStep([], p);
    PostStep([p], q);
  }

  lemma {:induction false} TransferPostingsSum(ts: seq<TransferRow>, u: UserId)
    ensures SumFor(TransferPostings(ts), u) == Sent(ts, u) - Received(ts, u)
    ensures PostedTotal(TransferPostings(ts)) == 0.0
  {
    if ts != [] {
      var t := ts[|ts| - 1];
      var init := TransferPostings(ts[..|ts| - 1]);
      assert TransferPostings(ts) == init + TransferPair(t);
      TransferPostingsSum(ts[..|ts| - 1], u);
      TransferPairSum(t, u);
      SumForAppend(init, TransferPair(t), u);
      PostedTotalAppend(init, TransferPair(t));
    }
  }

  /** What the journal posts to a user is that user's net position. */
  lemma JournalNet(l: Snapshot, u: UserId)
    ensures SumFor(Journal(l), u) == Net(l, u)
    ensures PostedTotal(Journal(l)) == TotalSpent(l.expenses) - TotalOwed(l.shares)
  {
    var ep, sp, tp := ExpensePostings(l.expenses), SharePostings(l.shares), TransferPostings(l.transfers);
    SumForAppend(ep + sp, tp, u);
    SumForAppend(ep, sp, u);
    PostedTotalAppend(ep + sp, tp);
    PostedTotalAppend(ep, sp);
    ExpensePostingsSum(l.expenses, u);
    SharePostingsSum(l.shares, u);
    TransferPostingsSum(l.transfers, u);
  }

  /** Every user an expense, share or settled transfer names. */
  function UsersInvolved(l: Snapshot): set<UserId>
  {
    (set e | e in l.expenses :: e.paidBy)
      + (set s | s in l.shares :: s.userId)
      + (set t | t in l.transfers :: t.fromUser)
      + (set t | t in l.transfers :: t.toUser)
  }

  /** The keys the postings of a list of rows carry. */
  function PostedKeys(ps: seq<Posting>): set<string>
  {
    set p | p in ps :: p.key
  }

  lemma PostedKeysSnoc(ps: seq<Posting>, p: Posting)
    ensures PostedKeys(ps + [p]) == PostedKeys(ps) + {p.key}
  {
  }

  lemma {:induction false} ExpensePostingKeys(es: seq<ExpenseRow>)
    ensures PostedKeys(ExpensePostings(es)) == set e | e in es :: e.paidBy
  {
    if es != [] {
      var init := es[..|es| - 1];
      var e := es[|es| - 1];
      ExpensePostingKeys(init);
      assert es == init + [e];
      PostedKeysSnoc(ExpensePostings(init), Posting(e.paidBy, e.amount));
      assert (set x | x in es :: x.paidBy) == (set x | x in init :: x.paidBy) + {e.paidBy};
    }
  }

  lemma {:induction false} SharePostingKeys(ss: seq<ShareRow>)
    ensures PostedKeys(SharePostings(ss)) == set s | s in ss :: s.userId
  {
    if ss != [] {
      var init := ss[..|ss| - 1];
      var s := ss[|ss| - 1];
      SharePostingKeys(init);
      assert ss == init + [s];
      PostedKeysSnoc(SharePostings(init), Posting(s.userId, -s.amountOwed));
      assert (set x | x in ss :: x.userId) == (set x | x in init :: x.userId) + {s.userId};
    }
  }

  lemma {:induction false} TransferPostingKeys(ts: seq<TransferRow>)
    ensures PostedKeys(TransferPostings(ts))
         == (set t | t in ts :: t.fromUser) + (set t | t in ts :: t.toUser)
  {
    if ts != [] {
      var init := ts[..|ts| - 1];
      var t := ts[|ts| - 1];
      assert TransferPostings(ts) == TransferPostings(init) + TransferPair(t);
      TransferPostingKeys(init);
      TransferPairSum(t, "");
      assert PostedKeys(TransferPostings(ts)) == PostedKeys(TransferPostings(init)) + {t.fromUser, t.toUser};
      EndpointsSnoc(init, t);
      assert ts == init + [t];
    }
  }

  lemma EndpointsSnoc(ts: seq<TransferRow>, t: TransferRow)
    ensures (set x | x in ts + [t] :: x.fromUser) == (set x | x in ts :: x.fromUser) + {t.fromUser}
    ensures (set x | x in ts + [t] :: x.toUser) == (set x | x in ts :: x.toUser) + {t.toUser}
  {
  }

  /**
   * The aggregator yields one entry per user the snapshot names, each user
   * once, in the order the three loops first met them.
   */
  lemma UsersSeenSpec(l: Snapshot)
    ensures Distinct(UsersSeen(l))
    ensures forall u :: u in UsersSeen(l) <==> u in UsersInvolved(l)
  {
    var ep, sp, tp := ExpensePostings(l.expenses), SharePostings(l.shares), TransferPostings(l.transfers);
    ExpensePostingKeys(l.expenses);
    SharePostingKeys(l.shares);
    TransferPostingKeys(l.transfers);
    assert PostedKeys(Journal(l)) == PostedKeys(ep) + PostedKeys(sp) + PostedKeys(tp);
    KeysOfSpec(Journal(l));
    forall u ensures u in UsersSeen(l) <==> u in PostedKeys(Journal(l)) {
      if u in PostedKeys(Journal(l)) {
        var p :| p in Journal(l) && p.key == u;
        var i :| 0 <= i < |Journal(l)| && Journal(l)[i] == p;
      }
    }
  }

  /** A user the snapshot never names has a zero net position. */
  lemma NetOfUninvolved(l: Snapshot, u: UserId)
    requires u !in UsersInvolved(l)
    ensures Net(l, u) == 0.0
  {
    UsersSeenSpec(l);
    KeysOfSpec(Journal(l));
    SumForAbsent(Journal(l), u);
    JournalNet(l, u);
  }

  /** Whole cents are left unchanged by rounding. */
  lemma RoundWholeCents(c: int)
    ensures RoundCents(c as real / 100.0) == c
  {
  }

  /**
   * Each user's aggregated balance is their exact net position rounded to
   * cents (zero for a user the snapshot never names), and no user has two
   * entries.
   */
  lemma BalancesOfSpec(l: Snapshot)
    ensures DistinctIds(BalancesOf(l))
    ensures Ids(BalancesOf(l)) == UsersInvolved(l)
    ensures forall u :: AmountOf(BalancesOf(l), u) == RoundCents(Net(l, u))
  {
    var bs, us := BalancesOf(l), UsersSeen(l);
    UsersSeenSpec(l);
    forall u ensures AmountOf(bs, u) == RoundCents(Net(l, u)) {
      if u in us {
        var k :| 0 <= k < |us| && us[k] == u;
        AmountOfDistinct(bs, k);
      } else {
        AmountOfAbsent(bs, u);
        NetOfUninvolved(l, u);
      }
    }
    forall u ensures u in Ids(bs) <==> u in us {
      if u in us {
        var k :| 0 <= k < |us| && us[k] == u;
        assert bs[k] in bs;
      }
    }
  }

  /** Sum of the exact net positions of `us`. */
  function SumNets(l: Snapshot, us: seq<UserId>): real
  {
    if us == [] then 0.0 else SumNets(l, us[..|us| - 1]) + Net(l, us[|us| - 1])
  }

  lemma {:induction false} SumNetsIsJournalSum(l: Snapshot, us: seq<UserId>)
    ensures SumNets(l, us) == SumOverKeys(Journal(l), us)
  {
    if us != [] {
      SumNetsIsJournalSum(l, us[..|us| - 1]);
      JournalNet(l, us[|us| - 1]);
    }
  }

  /**
   * Conservation: settled transfers cancel out, so the exact net positions
   * of all users add up to what was spent minus what was owed.
   */
  lemma Conservation(l: Snapshot)
    ensures SumNets(l, UsersSeen(l)) == TotalSpent(l.expenses) - TotalOwed(l.shares)
  {
    SumNetsIsJournalSum(l, UsersSeen(l));
    GroupingConserves(Journal(l));
    JournalNet(l, "");
  }
}
