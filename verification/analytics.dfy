/**
 * The aggregation of `fetchAnalyticsData` in src/pages/Analytics.tsx
 * (lines 112-183) over the fetched expense rows: the group filter, the
 * per-category, per-day and per-payer folds into JavaScript `Map`s, the
 * totals and the average per paying member.
 *
 * A `Map` is modelled by a Dafny `map` together with the sequence of its keys
 * in insertion order, which is the order `Array.from(m.values())` lists them
 * in. The profile lookup of a payer is the parameter `profile`.
 */
module Analytics {
  import opened Wrappers
  import opened Ledger
  import opened GroupBy
  import opened Sorting

  /** The columns `amount, category, expense_date, paid_by, group_id` of one expense. */
  datatype Spend = Spend(amount: real, category: string, expenseDate: string, paidBy: UserId, groupId: string)

  datatype CategoryEntry = CategoryEntry(category: string, amount: real, count: nat)

  datatype DayEntry = DayEntry(date: string, amount: real)

  datatype MemberEntry = MemberEntry(userId: UserId, name: string, amount: real, count: nat)

  /** The `profiles` row of a payer, as far as the name goes; a missing column is "". */
  datatype Profile = Profile(displayName: string, email: string)

  /** The figures `setAnalyticsData` receives (the monthly series is not part of this model). */
  datatype Report = Report(categoryData: seq<CategoryEntry>, memberData: seq<MemberEntry>,
                           heatmapData: seq<DayEntry>, totalAmount: real, totalExpenses: nat,
                           avgPerMember: real)

  /** `groups.some(g => g.id === exp.group_id)` filter, applied only when 'all' is selected. */
  function InScope(es: seq<Spend>, selectedGroup: string, groupIds: seq<string>): seq<Spend>
  {
    if selectedGroup != "all" then es
    else if es == [] then []
    else
      InScope(es[..|es| - 1], selectedGroup, groupIds)
        + (if es[|es| - 1].groupId in groupIds then [es[|es| - 1]] else [])
  }

  /** `profileData?.display_name || profileData?.email || 'Unknown'` */
  function ProfileName(p: Option<Profile>): string
  {
    match p
    case Some(q) => if q.displayName != "" then q.displayName else if q.email != "" then q.email else "Unknown"
    case None => "Unknown"
  }

  /** `filteredExpenses.reduce((sum, exp) => sum + Number(exp.amount), 0)` */
  function TotalAmount(es: seq<Spend>): real
  {
    if es == [] then 0.0 else TotalAmount(es[..|es| - 1]) + es[|es| - 1].amount
  }

  function Payers(es: seq<Spend>): seq<UserId>
  {
    seq(|es|, k requires 0 <= k < |es| => es[k].paidBy)
  }

  /** `new Set(filteredExpenses.map(exp => exp.paid_by)).size` */
  function UniqueMembers(es: seq<Spend>): nat
  {
    |Dedup(Payers(es))|
  }

  /** `uniqueMembers > 0 ? totalAmount / uniqueMembers : 0` */
  function AvgPerMember(es: seq<Spend>): real
  {
    var n := UniqueMembers(es);
    if n > 0 then TotalAmount(es) / (n as real) else 0.0
  }

  /** The expenses as postings of their amount to their category. */
  function ByCategory(es: seq<Spend>): seq<Posting>
  {
    seq(|es|, k requires 0 <= k < |es| => Posting(es[k].category, es[k].amount))
  }

  /** The expenses as postings of their amount to their date. */
  function ByDate(es: seq<Spend>): seq<Posting>
  {
    seq(|es|, k requires 0 <= k < |es| => Posting(es[k].expenseDate, es[k].amount))
  }

  /** The expenses as postings of their amount to their payer. */
  function ByPayer(es: seq<Spend>): seq<Posting>
  {
    seq(|es|, k requires 0 <= k < |es| => Posting(es[k].paidBy, es[k].amount))
  }

  function CategoryEntries(ps: seq<Posting>, ks: seq<string>): seq<CategoryEntry>
  {
    seq(|ks|, k requires 0 <= k < |ks| => CategoryEntry(ks[k], SumFor(ps, ks[k]), CountFor(ps, ks[k])))
  }

  function DayEntries(ps: seq<Posting>, ks: seq<string>): seq<DayEntry>
  {
    seq(|ks|, k requires 0 <= k < |ks| => DayEntry(ks[k], SumFor(ps, ks[k])))
  }

  function MemberEntries(ps: seq<Posting>, ks: seq<string>, profile: UserId -> Option<Profile>): seq<MemberEntry>
  {
    seq(|ks|, k requires 0 <= k < |ks| =>
      MemberEntry(ks[k], ProfileName(profile(ks[k])), SumFor(ps, ks[k]), CountFor(ps, ks[k])))
  }

  /** `categoryData`: one entry per category, in first-appearance order. */
  function CategoryData(es: seq<Spend>): seq<CategoryEntry>
  {
    CategoryEntries(ByCategory(es), KeysOf(ByCategory(es)))
  }

  /** `heatmapData`: one entry per date, in first-appearance order. */
  function HeatmapData(es: seq<Spend>): seq<DayEntry>
  {
    DayEntries(ByDate(es), KeysOf(ByDate(es)))
  }

  /** `memberData` before the sort: one entry per payer, in first-appearance order. */
  function MemberTotalsOf(es: seq<Spend>, profile: UserId -> Option<Profile>): seq<MemberEntry>
  {
    MemberEntries(ByPayer(es), KeysOf(ByPayer(es)), profile)
  }

  /** `(a, b) => b.amount - a.amount`: largest amount first. */
  function Descending(m: MemberEntry): real
  {
    -m.amount
  }

  function MemberData(es: seq<Spend>, profile: UserId -> Option<Profile>): seq<MemberEntry>
  {
    SortBy(MemberTotalsOf(es, profile), Descending)
  }

  /** What `fetchAnalyticsData` computes from the fetched rows. */
  function ReportOf(expenses: seq<Spend>, selectedGroup: string, groupIds: seq<string>,
                    profile: UserId -> Option<Profile>): Report
  {
    var es := InScope(expenses, selectedGroup, groupIds);
    Report(CategoryData(es), MemberData(es, profile), HeatmapData(es), TotalAmount(es), |es|, AvgPerMember(es))
  }

  /** Lines 112-188 after the fetch. */
  method Analyze(expenses: seq<Spend>, selectedGroup: string, groupIds: seq<string>,
                 profile: UserId -> Option<Profile>) returns (report: Report)
    ensures report == ReportOf(expenses, selectedGroup, groupIds, profile)
  {
    var filteredExpenses := InScope(expenses, selectedGroup, groupIds);
    var categoryData := CategoryFold(filteredExpenses);
    var memberData := MemberFold(filteredExpenses, profile);
    var heatmapData := HeatmapFold(filteredExpenses);
    var totalAmount := TotalAmount(filteredExpenses);
    var totalExpenses := |filteredExpenses|;
    var uniqueMembers := UniqueMembers(filteredExpenses);
    var avgPerMember := if uniqueMembers > 0 then totalAmount / (uniqueMembers as real) else 0.0;
    report := Report(categoryData, memberData, heatmapData, totalAmount, totalExpenses, avgPerMember);
  }

  /** `categoryMap` and its key order hold one entry per category of `posted`. */
  ghost predicate CategoriesTrack(m: map<string, CategoryEntry>, keys: seq<string>, posted: seq<Posting>)
  {
    && keys == KeysOf(posted)
    && (forall c :: c in m <==> c in keys)
    && (forall c :: c in m ==> m[c] == CategoryEntry(c, SumFor(posted, c), CountFor(posted, c)))
  }

  /** The body of the `categoryMap` loop, lines 118-124: add one expense to its category. */
  method AddToCategory(m: map<string, CategoryEntry>, keys: seq<string>, e: Spend, ghost posted: seq<Posting>)
    returns (m': map<string, CategoryEntry>, keys': seq<string>)
    requires CategoriesTrack(m, keys, posted)
    ensures CategoriesTrack(m', keys', posted + [Posting(e.category, e.amount)])
  {
    var c := e.category;
    var existing := if c in m then m[c] else CategoryEntry(c, 0.0, 0);
    keys' := keys;
    if c !in m {
      NewKey(posted, c);
      keys' := keys + [c];
    }
    m' := m[c := CategoryEntry(c, existing.amount + e.amount, existing.count + 1)];
    PostStep(posted, Posting(c, e.amount));
  }

  /** The `categoryMap` loop of lines 117-125, then `Array.from(categoryMap.values())`. */
  method CategoryFold(es: seq<Spend>) returns (data: seq<CategoryEntry>)
    ensures data == CategoryData(es)
  {
    ghost var ps := ByCategory(es);
    var categoryMap: map<string, CategoryEntry> := map[];
    var keys: seq<string> := [];
    for i := 0 to |es|
      invariant CategoriesTrack(categoryMap, keys, ps[..i])
    {
      categoryMap, keys := AddToCategory(categoryMap, keys, es[i], ps[..i]);
      assert ps[..i + 1] == ps[..i] + [Posting(es[i].category, es[i].amount)];
    }
    assert ps[..|es|] == ps;
    data := seq(|keys|, k requires 0 <= k < |keys| => categoryMap[keys[k]]);
  }

  /** `heatmapMap` and its key order hold the total of each date of `posted`. */
  ghost predicate DaysTrack(m: map<string, real>, keys: seq<string>, posted: seq<Posting>)
  {
    && keys == KeysOf(posted)
    && (forall d :: d in m <==> d in keys)
    && (forall d :: d in m ==> m[d] == SumFor(posted, d))
  }

  /** The body of the `heatmapMap` loop, lines 165-171: add one expense to its date. */
  method AddToDay(m: map<string, real>, keys: seq<string>, e: Spend, ghost posted: seq<Posting>)
    returns (m': map<string, real>, keys': seq<string>)
    requires DaysTrack(m, keys, posted)
    ensures DaysTrack(m', keys', posted + [Posting(e.expenseDate, e.amount)])
  {
    var date := e.expenseDate;
    keys' := keys;
    if date !in m {
      NewKey(posted, date);
      keys' := keys + [date];
    }
    m' := m[date := Get(m, date) + e.amount];
    PostStep(posted, Posting(date, e.amount));
  }

  /** The `heatmapMap` loop of lines 164-172, then its entries as `{ date, amount }`. */
  method HeatmapFold(es: seq<Spend>) returns (data: seq<DayEntry>)
    ensures data == HeatmapData(es)
  {
    ghost var ps := ByDate(es);
    var heatmapMap: map<string, real> := map[];
    var keys: seq<string> := [];
    for i := 0 to |es|
      invariant DaysTrack(heatmapMap, keys, ps[..i])
    {
      heatmapMap, keys := AddToDay(heatmapMap, keys, es[i], ps[..i]);
      assert ps[..i + 1] == ps[..i] + [Posting(es[i].expenseDate, es[i].amount)];
    }
    assert ps[..|es|] == ps;
    data := seq(|keys|, k requires 0 <= k < |keys| => DayEntry(keys[k], heatmapMap[keys[k]]));
  }

  /** `memberMap` and its key order hold one entry per payer of `posted`. */
  ghost predicate MembersTrack(m: map<UserId, MemberEntry>, keys: seq<UserId>, posted: seq<Posting>,
                               profile: UserId -> Option<Profile>)
  {
    && keys == KeysOf(posted)
    && (forall u :: u in m <==> u in keys)
    && (forall u :: u in m ==>
          m[u] == MemberEntry(u, ProfileName(profile(u)), SumFor(posted, u), CountFor(posted, u)))
  }

  /**
   * The body of the `memberMap` loop, lines 141-160: create the payer's entry
   * with its profile name on first sight, then add to its amount and count.
   */
  method AddToMember(m: map<UserId, MemberEntry>, keys: seq<UserId>, e: Spend, ghost posted: seq<Posting>,
                     profile: UserId -> Option<Profile>)
    returns (m': map<UserId, MemberEntry>, keys': seq<UserId>)
    requires MembersTrack(m, keys, posted, profile)
    ensures MembersTrack(m', keys', posted + [Posting(e.paidBy, e.amount)], profile)
  {
    var u := e.paidBy;
    m', keys' := m, keys;
    if u !in m {
      NewKey(posted, u);
      m' := m[u := MemberEntry(u, ProfileName(profile(u)), 0.0, 0)];
      keys' := keys + [u];
    }
    var member := m'[u];
    m' := m'[u := member.(amount := member.amount + e.amount, count := member.count + 1)];
    PostStep(posted, Posting(u, e.amount));
  }

  /**
   * The `memberMap` loop of lines 140-161 followed by the sort of line 183.
   */
  method MemberFold(es: seq<Spend>, profile: UserId -> Option<Profile>) returns (data: seq<MemberEntry>)
    ensures data == MemberData(es, profile)
  {
    ghost var ps := ByPayer(es);
    var memberMap: map<UserId, MemberEntry> := map[];
    var keys: seq<UserId> := [];
    for i := 0 to |es|
      invariant MembersTrack(memberMap, keys, ps[..i], profile)
    {
      memberMap, keys := AddToMember(memberMap, keys, es[i], ps[..i], profile);
      assert ps[..i + 1] == ps[..i] + [Posting(es[i].paidBy, es[i].amount)];
    }
    assert ps[..|es|] == ps;
    var members := new MemberEntry[|keys|](k requires 0 <= k < |keys| => memberMap[keys[k]]);
    assert members[..] == MemberTotalsOf(es, profile);
    SortInPlace(members, Descending);
    data := members[..];
  }

  /**
   * With a group selected the rows are kept as fetched; with 'all' exactly
   * the rows of the user's groups are kept.
   */
  lemma {:induction false} InScopeSpec(es: seq<Spend>, selectedGroup: string, groupIds: seq<string>)
    ensures selectedGroup != "all" ==> InScope(es, selectedGroup, groupIds) == es
    ensures selectedGroup == "all" ==>
      forall e :: e in InScope(es, selectedGroup, groupIds) <==> e in es && e.groupId in groupIds
    ensures |InScope(es, selectedGroup, groupIds)| <= |es|
  {
    if selectedGroup == "all" && es != [] {
      InScopeSpec(es[..|es| - 1], selectedGroup, groupIds);
      assert es == es[..|es| - 1] + [es[|es| - 1]];
    }
  }

  /** The postings of the expenses carry all of their amounts. */
  lemma {:induction false} PostedAmounts(es: seq<Spend>, ps: seq<Posting>)
    requires |ps| == |es| && forall k :: 0 <= k < |es| ==> ps[k].value == es[k].amount
    ensures PostedTotal(ps) == TotalAmount(es)
  {
    if es != [] {
      PostedAmounts(es[..|es| - 1], ps[..|ps| - 1]);
    }
  }

  function CategoryAmounts(cs: seq<CategoryEntry>): real
  {
    if cs == [] then 0.0 else CategoryAmounts(cs[..|cs| - 1]) + cs[|cs| - 1].amount
  }

  function CategoryCounts(cs: seq<CategoryEntry>): int
  {
    if cs == [] then 0 else CategoryCounts(cs[..|cs| - 1]) + cs[|cs| - 1].count
  }

  function DayAmounts(ds: seq<DayEntry>): real
  {
    if ds == [] then 0.0 else DayAmounts(ds[..|ds| - 1]) + ds[|ds| - 1].amount
  }

  function MemberAmounts(ms: seq<MemberEntry>): real
  {
    if ms == [] then 0.0 else MemberAmounts(ms[..|ms| - 1]) + ms[|ms| - 1].amount
  }

  function MemberCounts(ms: seq<MemberEntry>): int
  {
    if ms == [] then 0 else MemberCounts(ms[..|ms| - 1]) + ms[|ms| - 1].count
  }

  lemma {:induction false} CategoryEntriesSums(ps: seq<Posting>, ks: seq<string>)
    ensures CategoryAmounts(CategoryEntries(ps, ks)) == SumOverKeys(ps, ks)
    ensures CategoryCounts(CategoryEntries(ps, ks)) == CountOverKeys(ps, ks)
  {
    if ks != [] {
      var init := ks[..|ks| - 1];
      CategoryEntriesSums(ps, init);
      assert CategoryEntries(ps, ks)[..|ks| - 1] == CategoryEntries(ps, init);
    }
  }

  lemma {:induction false} DayEntriesSums(ps: seq<Posting>, ks: seq<string>)
    ensures DayAmounts(DayEntries(ps, ks)) == SumOverKeys(ps, ks)
  {
    if ks != [] {
      var init := ks[..|ks| - 1];
      DayEntriesSums(ps, init);
      assert DayEntries(ps, ks)[..|ks| - 1] == DayEntries(ps, init);
    }
  }

  lemma {:induction false} MemberEntriesSums(ps: seq<Posting>, ks: seq<string>, profile: UserId -> Option<Profile>)
    ensures MemberAmounts(MemberEntries(ps, ks, profile)) == SumOverKeys(ps, ks)
    ensures MemberCounts(MemberEntries(ps, ks, profile)) == CountOverKeys(ps, ks)
  {
    if ks != [] {
      var init := ks[..|ks| - 1];
      MemberEntriesSums(ps, init, profile);
      assert MemberEntries(ps, ks, profile)[..|ks| - 1] == MemberEntries(ps, init, profile);
    }
  }

  /**
   * The category amounts add up to `totalAmount` and the category counts to
   * `totalExpenses`.
   */
  lemma CategoriesAddUp(es: seq<Spend>)
    ensures CategoryAmounts(CategoryData(es)) == TotalAmount(es)
    ensures CategoryCounts(CategoryData(es)) == |es|
  {
    var ps := ByCategory(es);
    GroupingConserves(ps);
    CategoryEntriesSums(ps, KeysOf(ps));
    PostedAmounts(es, ps);
  }

  /** The heatmap amounts add up to `totalAmount`. */
  lemma HeatmapAddsUp(es: seq<Spend>)
    ensures DayAmounts(HeatmapData(es)) == TotalAmount(es)
  {
    var ps := ByDate(es);
    GroupingConserves(ps);
    DayEntriesSums(ps, KeysOf(ps));
    PostedAmounts(es, ps);
  }

  /** The categories of the expenses, in order. */
  function CategoriesOf(es: seq<Spend>): seq<string>
  {
    seq(|es|, k requires 0 <= k < |es| => es[k].category)
  }

  /** The dates of the expenses, in order. */
  function DatesOf(es: seq<Spend>): seq<string>
  {
    seq(|es|, k requires 0 <= k < |es| => es[k].expenseDate)
  }

  /** The categories of the entries of `categoryData`, in order. */
  function CategoryLabels(data: seq<CategoryEntry>): seq<string>
  {
    seq(|data|, i requires 0 <= i < |data| => data[i].category)
  }

  /** The dates of the entries of `heatmapData`, in order. */
  function DayLabels(data: seq<DayEntry>): seq<string>
  {
    seq(|data|, i requires 0 <= i < |data| => data[i].date)
  }

  /**
   * `categoryData` has one entry per category of the expenses, in the order
   * the categories first appear, and each entry holds the amount and the
   * count of exactly the expenses in its category.
   */
  lemma CategoriesSpec(es: seq<Spend>)
    ensures CategoryLabels(CategoryData(es)) == Dedup(CategoriesOf(es))
    ensures Distinct(CategoryLabels(CategoryData(es)))
    ensures forall c :: c in CategoryLabels(CategoryData(es)) <==> c in CategoriesOf(es)
    ensures forall i :: 0 <= i < |CategoryData(es)| ==>
      CategoryData(es)[i].amount == SumFor(ByCategory(es), CategoryData(es)[i].category)
      && CategoryData(es)[i].count == CountFor(ByCategory(es), CategoryData(es)[i].category)
  {
    var ps := ByCategory(es);
    KeyListSpec(ps);
    assert KeyList(ps) == CategoriesOf(es);
    DedupSpec(CategoriesOf(es));
    assert CategoryLabels(CategoryData(es)) == KeysOf(ps);
  }

  /**
   * `heatmapData` has one entry per date of the expenses, in the order the
   * dates first appear, and each entry holds the amount spent on its date.
   */
  lemma HeatmapSpec(es: seq<Spend>)
    ensures DayLabels(HeatmapData(es)) == Dedup(DatesOf(es))
    ensures Distinct(DayLabels(HeatmapData(es)))
    ensures forall d :: d in DayLabels(HeatmapData(es)) <==> d in DatesOf(es)
    ensures forall i :: 0 <= i < |HeatmapData(es)| ==> HeatmapData(es)[i].amount == SumFor(ByDate(es), HeatmapData(es)[i].date)
  {
    var ps := ByDate(es);
    KeyListSpec(ps);
    assert KeyList(ps) == DatesOf(es);
    DedupSpec(DatesOf(es));
    assert DayLabels(HeatmapData(es)) == KeysOf(ps);
  }

  lemma {:induction false} InsertKeepsMemberSums(s: seq<MemberEntry>, x: MemberEntry, key: MemberEntry -> real)
    ensures MemberAmounts(Insert(s, x, key)) == MemberAmounts(s) + x.amount
    ensures MemberCounts(Insert(s, x, key)) == MemberCounts(s) + x.count
  {
    if s != [] && key(s[|s| - 1]) > key(x) {
      InsertKeepsMemberSums(s[..|s| - 1], x, key);
      var r := Insert(s[..|s| - 1], x, key);
      assert (r + [s[|s| - 1]])[..|r|] == r;
    } else {
      assert (s + [x])[..|s|] == s;
    }
  }

  lemma {:induction false} SortKeepsMemberSums(s: seq<MemberEntry>, key: MemberEntry -> real)
    ensures MemberAmounts(SortBy(s, key)) == MemberAmounts(s)
    ensures MemberCounts(SortBy(s, key)) == MemberCounts(s)
  {
    if s != [] {
      SortKeepsMemberSums(s[..|s| - 1], key);
      InsertKeepsMemberSums(SortBy(s[..|s| - 1], key), s[|s| - 1], key);
    }
  }

  /**
   * `memberData` is ordered by amount, largest first; it holds one entry per
   * distinct payer, whose amounts add up to `totalAmount` and whose counts
   * to `totalExpenses`.
   */
  lemma MembersSpec(es: seq<Spend>, profile: UserId -> Option<Profile>)
    ensures forall i, j :: 0 <= i < j < |MemberData(es, profile)| ==>
      MemberData(es, profile)[i].amount >= MemberData(es, profile)[j].amount
    ensures multiset(MemberData(es, profile)) == multiset(MemberTotalsOf(es, profile))
    ensures |MemberData(es, profile)| == UniqueMembers(es)
    ensures MemberAmounts(MemberData(es, profile)) == TotalAmount(es)
    ensures MemberCounts(MemberData(es, profile)) == |es|
  {
    var ps := ByPayer(es);
    var unsorted := MemberTotalsOf(es, profile);
    SortByOrdered(unsorted, Descending);
    SortByPermutes(unsorted, Descending);
    SortKeepsMemberSums(unsorted, Descending);
    GroupingConserves(ps);
    MemberEntriesSums(ps, KeysOf(ps), profile);
    PostedAmounts(es, ps);
    PayerKeys(es);
    var sorted := MemberData(es, profile);
    forall i, j | 0 <= i < j < |sorted| ensures sorted[i].amount >= sorted[j].amount {
      assert Descending(sorted[i]) <= Descending(sorted[j]);
    }
  }

  /** The payer keys of the member fold are the payers, each once. */
  lemma PayerKeys(es: seq<Spend>)
    ensures KeysOf(ByPayer(es)) == Dedup(Payers(es))
  {
    assert KeyList(ByPayer(es)) == Payers(es) by {
      KeyListSpec(ByPayer(es));
    }
  }

  /**
   * The average is zero when nothing was spent by anyone, and otherwise the
   * total shared out evenly over the distinct payers.
   */
  lemma AverageSpec(es: seq<Spend>)
    ensures es == [] ==> AvgPerMember(es) == 0.0
    ensures es != [] ==> UniqueMembers(es) > 0 && AvgPerMember(es) * (UniqueMembers(es) as real) == TotalAmount(es)
  {
    if es != [] {
      DedupSpec(Payers(es));
      assert Payers(es)[0] in Dedup(Payers(es));
    }
  }
}
