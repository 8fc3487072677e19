/**
 * The expense list of src/components/expenses/ExpensesList.tsx: the fetched
 * expenses enriched with the payer's display name (lines 49-55), the search
 * and filter predicate (lines 75-82) and the text of the CSV export
 * (lines 84-96).
 *
 * `show` stands for JavaScript's number-to-text conversion of the amount.
 */
module ExpensesList {
  import opened Wrappers
  import opened Ledger
  import opened Text

  /** A `groupMembers` entry. */
  datatype ListMember = ListMember(userId: UserId, displayName: string)

  /** An expense row with its `payer_name`. */
  datatype Listed = Listed(expense: Expense, payerName: string)

  /** The filter state: the search box, the category select and the member select. */
  datatype Filters = Filters(searchTerm: string, categoryFilter: string, memberFilter: string)

  /** `groupMembers.find(m => m.user_id === id)` */
  function FindMember(members: seq<ListMember>, id: UserId): Option<ListMember>
  {
    if members == [] then None
    else if members[0].userId == id then Some(members[0])
    else FindMember(members[1..], id)
  }

  /** `payer?.display_name || 'Unknown'` */
  function PayerName(members: seq<ListMember>, paidBy: UserId): string
  {
    match FindMember(members, paidBy)
    case Some(m) => if m.displayName == "" then "Unknown" else m.displayName
    case None => "Unknown"
  }

  /** `data.map(expense => ({ ...expense, payer_name: ... }))` */
  function WithPayers(members: seq<ListMember>, es: seq<Expense>): (r: seq<Listed>)
    ensures |r| == |es|
    ensures forall k :: 0 <= k < |es| ==> r[k].expense == es[k]
    ensures forall k :: 0 <= k < |es| ==> r[k].payerName == PayerName(members, es[k].paidBy)
  {
    seq(|es|, k requires 0 <= k < |es| => Listed(es[k], PayerName(members, es[k].paidBy)))
  }

  /** The predicate of `filteredExpenses`. */
  predicate Matches(x: Listed, f: Filters)
  {
    var term := ToLower(f.searchTerm);
    && (Contains(ToLower(x.expense.description), term) || Contains(ToLower(x.payerName), term))
    && (f.categoryFilter == "all" || x.expense.category == f.categoryFilter)
    && (f.memberFilter == "all" || x.expense.paidBy == f.memberFilter)
  }

  /** `expenses.filter(...)` */
  function Filtered(xs: seq<Listed>, f: Filters): seq<Listed>
  {
    if xs == [] then []
    else Filtered(xs[..|xs| - 1], f) + (if Matches(xs[|xs| - 1], f) then [xs[|xs| - 1]] else [])
  }

  /** The positions of `xs` the filter keeps, in increasing order. */
  function KeptPositions(xs: seq<Listed>, f: Filters): seq<nat>
  {
    if xs == [] then []
    else KeptPositions(xs[..|xs| - 1], f) + (if Matches(xs[|xs| - 1], f) then [|xs| - 1] else [])
  }

  const HeaderNames: seq<string> := ["Date", "Description", "Category", "Amount", "Paid By", "Split Method"]

  /** `headers.join(',')` */
  function Header(): string
  {
    Join(HeaderNames, ",")
  }

  /** The header is a single line. */
  lemma HeaderOneLine()
    ensures '\n' !in Header()
  {
    JoinFree(HeaderNames, ",", '\n');
  }

  /** The six fields of an export line. */
  function ExportFields(x: Listed, show: real -> string): seq<string>
  {
    [x.expense.expenseDate, "\"" + x.expense.description + "\"", x.expense.category,
     show(x.expense.amount), "\"" + x.payerName + "\"", x.expense.splitMethod]
  }

  /** One line per expense: its fields joined with ','. */
  function ExportLine(x: Listed, show: real -> string): string
  {
    Join(ExportFields(x, show), ",")
  }

  /** `[headers.join(','), ...lines].join('\n')` */
  function ExportCsv(xs: seq<Listed>, show: real -> string): string
  {
    Join([Header()] + seq(|xs|, k requires 0 <= k < |xs| => ExportLine(xs[k], show)), "\n")
  }

  /** No field of the expense holds the character `c`. */
  predicate FieldsFree(x: Listed, show: real -> string, c: char)
  {
    forall k :: 0 <= k < 6 ==> c !in ExportFields(x, show)[k]
  }

  /**
   * The payer's name is the display name of the first member with the
   * payer's id, or 'Unknown' when no member has it or the name is empty.
   */
  lemma PayerNameSpec(members: seq<ListMember>, paidBy: UserId)
    ensures (forall k :: 0 <= k < |members| ==> members[k].userId != paidBy) ==> PayerName(members, paidBy) == "Unknown"
    ensures forall k :: (0 <= k < |members| && members[k].userId == paidBy
                         && (forall j :: 0 <= j < k ==> members[j].userId != paidBy)) ==>
      PayerName(members, paidBy) == (if members[k].displayName == "" then "Unknown" else members[k].displayName)
  {
    if forall k :: 0 <= k < |members| ==> members[k].userId != paidBy {
      FindMemberAbsent(members, paidBy);
    }
    forall k | 0 <= k < |members| && members[k].userId == paidBy
               && (forall j :: 0 <= j < k ==> members[j].userId != paidBy)
      ensures PayerName(members, paidBy) == (if members[k].displayName == "" then "Unknown" else members[k].displayName)
    {
      FindMemberFirst(members, paidBy, k);
    }
  }

  /** The search returns the first member with the id. */
  lemma {:induction false} FindMemberFirst(members: seq<ListMember>, id: UserId, k: nat)
    requires k < |members| && members[k].userId == id
    requires forall j :: 0 <= j < k ==> members[j].userId != id
    ensures FindMember(members, id) == Some(members[k])
  {
    if k > 0 {
      assert members[0].userId != id;
      var rest := members[1..];
      assert rest[k - 1] == members[k];
      forall j | 0 <= j < k - 1 ensures rest[j].userId != id {
        assert rest[j] == members[j + 1];
      }
      FindMemberFirst(rest, id, k - 1);
    }
  }

  /** The search finds nothing when no member has the id. */
  lemma {:induction false} FindMemberAbsent(members: seq<ListMember>, id: UserId)
    requires forall k :: 0 <= k < |members| ==> members[k].userId != id
    ensures FindMember(members, id) == None
  {
    if members != [] {
      assert members[0].userId != id;
      var rest := members[1..];
      forall j | 0 <= j < |rest| ensures rest[j].userId != id {
        assert rest[j] == members[j + 1];
      }
      FindMemberAbsent(rest, id);
    }
  }

  /** The filter keeps exactly the expenses that match, and never more than it was given. */
  lemma {:induction false} FilteredSpec(xs: seq<Listed>, f: Filters)
    ensures forall x :: x in Filtered(xs, f) <==> x in xs && Matches(x, f)
    ensures |Filtered(xs, f)| <= |xs|
  {
    if xs != [] {
      FilteredSpec(xs[..|xs| - 1], f);
      assert xs == xs[..|xs| - 1] + [xs[|xs| - 1]];
    }
  }

  /**
   * The filtered list is a subsequence of the list, order kept: its k-th
   * entry is the entry at the k-th kept position, and the positions grow.
   */
  lemma {:induction false} FilteredIsSubsequence(xs: seq<Listed>, f: Filters)
    ensures |KeptPositions(xs, f)| == |Filtered(xs, f)|
    ensures forall k :: 0 <= k < |KeptPositions(xs, f)| ==>
      KeptPositions(xs, f)[k] < |xs| && Filtered(xs, f)[k] == xs[KeptPositions(xs, f)[k]]
    ensures forall i, j :: 0 <= i < j < |KeptPositions(xs, f)| ==> KeptPositions(xs, f)[i] < KeptPositions(xs, f)[j]
  {
    if xs != [] {
      var init := xs[..|xs| - 1];
      FilteredIsSubsequence(init, f);
      var p := KeptPositions(init, f);
      forall k | 0 <= k < |p| ensures p[k] < |init| && xs[p[k]] == init[p[k]] {
      }
    }
  }

  /** With an empty search and both selects on 'all', every expense is shown. */
  lemma {:induction false} NoFilterKeepsAll(xs: seq<Listed>)
    ensures Filtered(xs, Filters("", "all", "all")) == xs
  {
    if xs != [] {
      var init, last := xs[..|xs| - 1], xs[|xs| - 1];
      NoFilterKeepsAll(init);
      NoFilterMatches(last);
      assert xs == init + [last];
    }
  }

  /** Every expense matches the empty search with both selects on 'all'. */
  lemma NoFilterMatches(x: Listed)
    ensures Matches(x, Filters("", "all", "all"))
  {
    assert ToLower("") == "";
    ContainsEmpty(ToLower(x.expense.description));
  }

  /** The search ignores the case of the search term. */
  lemma SearchIgnoresCase(x: Listed, f: Filters)
    ensures Matches(x, f.(searchTerm := ToLower(f.searchTerm))) == Matches(x, f)
  {
    ToLowerTwice(f.searchTerm);
  }

  /** A piece joined from pieces without `c` by a separator without `c` has no `c`. */
  lemma {:induction false} JoinFree(parts: seq<string>, sep: string, c: char)
    requires forall k :: 0 <= k < |parts| ==> c !in parts[k]
    requires c !in sep
    ensures c !in Join(parts, sep)
  {
    if |parts| > 1 {
      JoinFree(parts[1..], sep, c);
    }
  }

  /**
   * When no field holds a comma, splitting an export line on ',' gives back
   * its six fields: date, quoted description, category, amount, quoted payer
   * name and split method.
   */
  lemma ExportLineFields(x: Listed, show: real -> string)
    requires FieldsFree(x, show, ',')
    ensures Split(ExportLine(x, show), ',') == ExportFields(x, show)
    ensures |Split(ExportLine(x, show), ',')| == 6
  {
    SplitJoin(ExportFields(x, show), ',');
  }

  /**
   * When no field holds a line break, the export text splits into the
   * header line followed by one line per shown expense, in order.
   */
  lemma ExportLines(xs: seq<Listed>, show: real -> string)
    requires forall k :: 0 <= k < |xs| ==> FieldsFree(xs[k], show, '\n')
    ensures |Split(ExportCsv(xs, show), '\n')| == 1 + |xs|
    ensures Split(ExportCsv(xs, show), '\n')[0] == Header()
    ensures forall k :: 0 <= k < |xs| ==> Split(ExportCsv(xs, show), '\n')[k + 1] == ExportLine(xs[k], show)
  {
    var lines := [Header()] + seq(|xs|, k requires 0 <= k < |xs| => ExportLine(xs[k], show));
    forall k | 0 <= k < |lines| ensures '\n' !in lines[k] {
      if k > 0 {
        JoinFree(ExportFields(xs[k - 1], show), ",", '\n');
      } else {
        HeaderOneLine();
      }
    }
    SplitJoin(lines, '\n');
  }
}
