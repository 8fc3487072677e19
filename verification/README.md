# EquiShare core, modelled in Dafny

EquiShare is a web application for sharing group expenses. Members of a group
record expenses, say who paid and how the amount is split. The app then shows
who owes whom. This project models the parts of the application that compute
something. Alongside each model it proves what those parts promise.

- **The settlement engine** (`supabase/functions/calculate-settlements/index.ts`).
  - It folds a group's expenses, expense shares and recorded settlements into one net balance per user. Balances go out in whole cents.
  - It then builds a settlement plan with the greedy "largest debtor pays largest creditor" loop.
  - Modules: `Aggregator`, `Optimizer`, `SettlementEngine`.
  - Proved:
    - money is conserved;
    - the plan's transfers are positive and go from a debtor to a creditor;
    - nobody pays more than they owe or receives more than they are owed;
    - the plan has at most `debtors + creditors - 1` transfers;
    - on a balanced group whose balances are exact cents, the plan settles everyone, and recording it leaves nothing more to settle. The code's floating-point loop can fall one cent short of this (see "## Left out").
- **The add-expense dialog** (`AddExpenseDialog.tsx`), module `ExpenseDialog`.
  - A form object, with its checks and its three split methods.
  - Proved: an equal split adds up to the amount. A percentage split adds up to it exactly when the percentages sum to 100.
- **The add-balance dialog** (`AddBalanceDialog.tsx`), module `BalanceDialog`.
  - A form object with its validation. It produces a settled transfer record.
- **The CSV import** (`CSVImportDialog.tsx`), module `CsvImport`.
  - Header validation, then a row loop that stops at the first unknown payer e-mail.
  - Every imported expense is split equally across all group members.
- **The expense list** (`ExpensesList.tsx`), module `ExpensesList`.
  - The payer name lookup, the search/filter predicate and the CSV export text.
- **The balance summary cards** (`BalanceSummary.tsx`), module `BalanceSummary`.
- **The analytics page aggregation** (`Analytics.tsx`), module `Analytics`.
  - Per category, per member and per day, with the totals and the per-member average.
- **The category table** (`src/data/categories.ts`), module `Categories`.

Shared pieces:

- `Ledger`: the record types.
- `GroupBy`: a JavaScript `Map` used as an accumulator. It is a Dafny `map` together with the sequence of its keys in insertion order.
- `Sorting`: the stable `Array.prototype.sort`. It is a stable insertion sort on sequences, with an in-place version on arrays.
- `Text`: split, join, trim and lower-case on strings.
- `Wrappers`: `Option` and `Result`.

How the model represents values:

- Money read from the database is a `real`.
- Balances and plan amounts leave the aggregation as `int` cents. `RoundCents` stands for `parseFloat(x.toFixed(2))`: it rounds `x * 100` to the nearest integer, with halves away from zero.
- The settlement loop's tolerance `0.01` becomes `EpsilonCents = 1`. In exact cents a remainder is under one cent only when it is zero, so the model closes a side only once it is fully settled.
- Things the model cannot compute are parameters:
  - fresh ids (`crypto.randomUUID`);
  - `parseFloat` of a CSV field;
  - number-to-text in the export;
  - the profile lookup on the analytics page;
  - the clock: `today` for the expense form's date, and `now` for the `settled_at` of a manual balance.
- Database reads are inputs (a `Snapshot` of the group's rows). Database writes are return values.

## Model

| member | source | states |
|---|---|---|
| Ledger.SplitMethodName | src/types/expense.ts:32 | each split method is stored under its own name: 'equal', 'percentage' or 'custom' |
| Ledger.Min | supabase/functions/calculate-settlements/index.ts:35-38 | `Math.min`: at most both arguments and equal to one of them |
| Ledger.Abs | supabase/functions/calculate-settlements/index.ts:35 | `Math.abs`: non-negative and equal to the argument or its negation |
| Ledger.TotalAppend | supabase/functions/calculate-settlements/index.ts:125-129 | the sum of the amounts of a concatenation is the sum of the two sums |
| Ledger.AmountOfAppend | supabase/functions/calculate-settlements/index.ts:125-129 | one user's amount over a concatenation is the sum over the two parts |
| Ledger.AmountOfDistinct | supabase/functions/calculate-settlements/index.ts:125-129 | in a balance list with distinct ids, a user's summed amount is that user's single entry |
| Ledger.AmountOfAbsent | supabase/functions/calculate-settlements/index.ts:125-129 | a user absent from a balance list has summed amount zero |
| Sorting.SortByOrdered | supabase/functions/calculate-settlements/index.ts:29-30 | the sort's result is ordered by the key and is a permutation of its input |
| Sorting.SortByPermutes | supabase/functions/calculate-settlements/index.ts:29-30 | sorting keeps the multiset of elements, the length and membership |
| Sorting.InsertKeepsOrder | supabase/functions/calculate-settlements/index.ts:29-30 | inserting into an ordered sequence keeps it ordered and adds exactly that element |
| Sorting.InsertAt | supabase/functions/calculate-settlements/index.ts:29-30 | stability: the inserted element lands after every element with a key at most its own and before the larger ones |
| Sorting.SortedSnoc | supabase/functions/calculate-settlements/index.ts:29-30 | appending an element whose key bounds all others keeps the order |
| Sorting.InsertLast | supabase/functions/calculate-settlements/index.ts:29-30 | one pass of the in-place sort inserts element k into the ordered prefix and leaves the rest of the array alone |
| Sorting.SortInPlace | supabase/functions/calculate-settlements/index.ts:29-30 | the array afterwards holds the stable sort of its old contents |
| Text.TrimStartSpec | src/components/import/CSVImportDialog.tsx:96-97 | trimming the start drops exactly the leading whitespace: the result is a suffix not starting with whitespace |
| Text.TrimEndSpec | src/components/import/CSVImportDialog.tsx:96-97 | trimming the end drops exactly the trailing whitespace: the result is a prefix not ending with whitespace |
| Text.TrimSpec | src/components/import/CSVImportDialog.tsx:96-97 | `trim()` is a slice of the input with only whitespace cut on either side and no whitespace at its ends |
| Text.Split | src/components/import/CSVImportDialog.tsx:96-97 | `split(c)` gives at least one piece and no piece contains `c` |
| Text.JoinSplit | src/components/import/CSVImportDialog.tsx:96-97 | joining the pieces of a split with the same character gives back the text |
| Text.SplitJoin | src/components/expenses/ExpensesList.tsx:84-96 | splitting pieces joined by a character none of them contains gives back the pieces |
| Text.ToLower | src/components/expenses/ExpensesList.tsx:76-77 | `toLowerCase` keeps the length, maps A-Z to a-z and leaves every other character |
| Text.ToLowerTwice | src/components/expenses/ExpensesList.tsx:76-77 | lower-casing is idempotent |
| Text.ContainsEmpty | src/components/expenses/ExpensesList.tsx:76-77 | every string `includes('')` |
| GroupBy.DedupSpec | supabase/functions/calculate-settlements/index.ts:126 | the key list has no duplicates and holds exactly the keys of the input |
| GroupBy.KeyListSpec | supabase/functions/calculate-settlements/index.ts:100-123 | the posted key sequence lists each posting's key in order |
| GroupBy.KeysOfSpec | supabase/functions/calculate-settlements/index.ts:100-126 | the map's keys are distinct and are exactly the keys ever posted |
| GroupBy.PostStep | supabase/functions/calculate-settlements/index.ts:104-105 | `m.set(k, (m.get(k) \|\| 0) + v)` appends k as a new key only when it was absent, adds v to k's sum and count, and to the total, and changes no other key |
| GroupBy.SumForAppend | supabase/functions/calculate-settlements/index.ts:100-123 | a key's sum over two batches of postings is the sum of its sums |
| GroupBy.PostedTotalAppend | supabase/functions/calculate-settlements/index.ts:100-123 | the total posted over two batches is the sum of their totals |
| GroupBy.SumForAbsent | supabase/functions/calculate-settlements/index.ts:104 | a key never posted has sum 0 and count 0 |
| GroupBy.NewKey | supabase/functions/calculate-settlements/index.ts:104 | a key not yet in the map starts from 0: the `\|\| 0` fallback |
| GroupBy.SumOverKeysStep | supabase/functions/calculate-settlements/index.ts:104-105 | one posting raises the sum over a set of distinct keys by its value exactly when its key is among them |
| GroupBy.SumOverCoveringKeys | supabase/functions/calculate-settlements/index.ts:100-126 | summing per key over distinct keys that cover every posting gives the total posted and the number of postings |
| GroupBy.EmptyOverKeys | supabase/functions/calculate-settlements/index.ts:100 | the fresh map has sum and count zero under every key |
| GroupBy.GroupingConserves | supabase/functions/calculate-settlements/index.ts:100-126 | the per-key sums of the map add up to the total posted, and the counts to the number of postings |
| Aggregator.RoundCents | supabase/functions/calculate-settlements/index.ts:128 | `toFixed(2)` in cents: within half a cent of `100x`, halves rounded away from zero |
| Aggregator.RoundWholeCents | supabase/functions/calculate-settlements/index.ts:128 | an amount already in whole cents is left as it is |
| Aggregator.Post | supabase/functions/calculate-settlements/index.ts:104-105 | one map update keeps the map equal to the grouping of everything posted so far, with its keys in insertion order |
| Aggregator.PostExpenses | supabase/functions/calculate-settlements/index.ts:103-106 | the expense loop credits each payer with each expense's amount |
| Aggregator.PostShares | supabase/functions/calculate-settlements/index.ts:109-112 | the participants loop debits each participant with the share they owe |
| Aggregator.PostTransfer | supabase/functions/calculate-settlements/index.ts:116-122 | a settled transfer credits its sender and debits its receiver |
| Aggregator.PostTransfers | supabase/functions/calculate-settlements/index.ts:115-123 | the settlements loop posts every settled transfer, in order |
| Aggregator.AggregateBalances | supabase/functions/calculate-settlements/index.ts:99-129 | the balance array is the net of every involved user, rounded to cents, in first-seen order |
| Aggregator.ExpensePostingsSum | supabase/functions/calculate-settlements/index.ts:103-106 | the expense postings give each user what they paid, and in total what the group spent |
| Aggregator.SharePostingsSum | supabase/functions/calculate-settlements/index.ts:109-112 | the share postings take from each user what they owe, and in total all that is owed |
| Aggregator.TransferPairSum | supabase/functions/calculate-settlements/index.ts:116-122 | a transfer moves its amount from the receiver's balance to the sender's, nets to zero and touches only its two endpoints |
| Aggregator.TransferPostingsSum | supabase/functions/calculate-settlements/index.ts:115-123 | the transfer postings give each user sent minus received and net to zero |
| Aggregator.JournalNet | supabase/functions/calculate-settlements/index.ts:100-123 | each user's accumulated value is paid minus owed plus sent minus received; all of them together total spent minus owed |
| Aggregator.PostedKeysSnoc | supabase/functions/calculate-settlements/index.ts:104-105 | one posting adds its key to the keys seen |
| Aggregator.ExpensePostingKeys | supabase/functions/calculate-settlements/index.ts:103-106 | the expense loop touches exactly the payers |
| Aggregator.SharePostingKeys | supabase/functions/calculate-settlements/index.ts:109-112 | the participants loop touches exactly the participants |
| Aggregator.TransferPostingKeys | supabase/functions/calculate-settlements/index.ts:115-123 | the settlements loop touches exactly the senders and receivers |
| Aggregator.EndpointsSnoc | supabase/functions/calculate-settlements/index.ts:115-123 | one more transfer adds its sender and receiver to the endpoints |
| Aggregator.UsersSeenSpec | supabase/functions/calculate-settlements/index.ts:100-126 | one balance per involved user, none twice |
| Aggregator.NetOfUninvolved | supabase/functions/calculate-settlements/index.ts:100-123 | a user who paid, owed, sent and received nothing has net zero |
| Aggregator.BalancesOfSpec | supabase/functions/calculate-settlements/index.ts:125-129 | the balances have distinct ids, are exactly the involved users, and give each user their net rounded to cents |
| Aggregator.SumNetsIsJournalSum | supabase/functions/calculate-settlements/index.ts:100-126 | the nets summed over any users are the map's sums over those keys |
| Aggregator.Conservation | supabase/functions/calculate-settlements/index.ts:103-126 | the nets of all involved users add up to total spent minus total owed |
| Optimizer.OptimizeSettlements | supabase/functions/calculate-settlements/index.ts:21-54 | the array routine returns the greedy plan of its input and changes nothing it was given |
| Optimizer.CopyToArray | supabase/functions/calculate-settlements/index.ts:25-26 | the filtered sides are fresh copies, so the loop's updates do not touch the caller's balances |
| Optimizer.SettleStep | supabase/functions/calculate-settlements/index.ts:35-50 | one loop turn emits the first transfer of the remaining plan and moves at least one cursor forward |
| Optimizer.WriteBack | supabase/functions/calculate-settlements/index.ts:46-50 | the remainder is written back and the cursor moves on exactly when it is under a cent, which in exact cents means zero |
| Optimizer.StepSigns | supabase/functions/calculate-settlements/index.ts:46-50 | after a turn the remaining debtors are still negative and the creditors still positive, and fewer entries remain |
| Optimizer.GreedyUnfold | supabase/functions/calculate-settlements/index.ts:34-51 | the plan starts with the head debtor paying the head creditor the smaller of debt and credit, then goes on from the updated sides |
| Optimizer.AdvanceSlice | supabase/functions/calculate-settlements/index.ts:46-50 | updating the head in the array and moving the cursor is what the loop does to the remaining side |
| Optimizer.Regroup | supabase/functions/calculate-settlements/index.ts:40-44 | pushing a transfer onto the emitted prefix keeps prefix plus remaining plan equal to the whole plan |
| Optimizer.DebtorsMembers | supabase/functions/calculate-settlements/index.ts:25-26 | the debtors are exactly the negative balances and the creditors exactly the positive ones |
| Optimizer.DebtorsSums | supabase/functions/calculate-settlements/index.ts:25-26 | only zero balances are dropped by the split: the two sides sum per user and in total to the input |
| Optimizer.InsertPreservesAmount | supabase/functions/calculate-settlements/index.ts:29-30 | an insertion adds the inserted balance's amount to its own user only |
| Optimizer.InsertPreservesTotal | supabase/functions/calculate-settlements/index.ts:29-30 | an insertion adds the inserted amount to the total |
| Optimizer.SortPreservesAmount | supabase/functions/calculate-settlements/index.ts:29-30 | sorting keeps every user's amount |
| Optimizer.SortPreservesTotal | supabase/functions/calculate-settlements/index.ts:29-30 | sorting keeps the total |
| Optimizer.SortedSidesKeepSigns | supabase/functions/calculate-settlements/index.ts:25-30 | the sorted debtors are all negative and the sorted creditors all positive |
| Optimizer.SortedSidesMembers | supabase/functions/calculate-settlements/index.ts:25-30 | every sorted debtor is a negative input balance, every sorted creditor a positive one |
| Optimizer.SortedSidesSums | supabase/functions/calculate-settlements/index.ts:25-30 | sorting the sides keeps each user's amount, the totals and the lengths |
| Optimizer.DebtorSigns | supabase/functions/calculate-settlements/index.ts:25 | a list of debts sums to a non-positive amount per user, and to a negative total when not empty |
| Optimizer.CreditorSigns | supabase/functions/calculate-settlements/index.ts:26 | a list of credits sums to a non-negative amount per user, and to a positive total when not empty |
| Optimizer.AdvanceSums | supabase/functions/calculate-settlements/index.ts:46-50 | writing a remainder to the head changes only the head user's amount and the total, by the difference, and never adds ids or entries |
| Optimizer.StepSides | supabase/functions/calculate-settlements/index.ts:35-50 | a turn settles a positive amount, lowers the head debtor's debt and the head creditor's credit by it, keeps signs and ids, and shrinks the sides |
| Optimizer.StepPlan | supabase/functions/calculate-settlements/index.ts:40-44 | a turn adds the settled amount to what the head debtor pays, what the head creditor receives and the plan's volume, and one entry to the plan |
| Optimizer.GreedyEntries | supabase/functions/calculate-settlements/index.ts:34-51 | every transfer is positive, from a debtor and to a creditor |
| Optimizer.GreedyPerUser | supabase/functions/calculate-settlements/index.ts:34-51 | nobody pays more than their debt or receives more than their credit; when the sides balance, each pays or receives exactly that |
| Optimizer.GreedyLength | supabase/functions/calculate-settlements/index.ts:34-51 | no transfer when a side is empty, otherwise between 1 and debtors + creditors - 1 |
| Optimizer.GreedyTotal | supabase/functions/calculate-settlements/index.ts:34-51 | in exact cents, the plan moves the smaller of the total debt and the total credit |
| Optimizer.PlanTransfersValid | supabase/functions/calculate-settlements/index.ts:25-44 | each transfer is positive, from a user with a negative balance and to a user with a positive one |
| Optimizer.PlanNoOverpayment | supabase/functions/calculate-settlements/index.ts:25-51 | no user pays more than they owe or receives more than they are owed |
| Optimizer.PlanPaysOrReceives | supabase/functions/calculate-settlements/index.ts:25-26 | with one balance per user, nobody both pays and receives |
| Optimizer.AmountOfPresent | supabase/functions/calculate-settlements/index.ts:25-26 | a user with a non-zero summed amount has an entry |
| Optimizer.PlanSettlesEveryone | supabase/functions/calculate-settlements/index.ts:21-54 | when the balances are exact cents summing to zero, carrying out the plan brings every balance to zero |
| Optimizer.PlanLength | supabase/functions/calculate-settlements/index.ts:21-54 | no transfer when there is no debtor or no creditor, otherwise at most debtors + creditors - 1 transfers |
| Optimizer.PlanVolume | supabase/functions/calculate-settlements/index.ts:21-54 | in exact cents, the plan moves the smaller of total debt and total credit, so all of the credit when the balances sum to zero |
| Optimizer.SidesVolume | supabase/functions/calculate-settlements/index.ts:21-54 | the plan's volume in terms of the unsorted sides |
| Optimizer.SortedVolume | supabase/functions/calculate-settlements/index.ts:29-51 | the plan's volume in terms of the sorted sides |
| Optimizer.SortedTotals | supabase/functions/calculate-settlements/index.ts:29-30 | sorting the sides keeps their totals |
| Optimizer.PlanStartsWithExtremes | supabase/functions/calculate-settlements/index.ts:29-44 | the first transfer is from a user with the smallest balance to a user with the largest, for the smaller of the two amounts |
| Optimizer.PlanHead | supabase/functions/calculate-settlements/index.ts:34-44 | a non-empty plan starts with the head of the sorted debtors paying the head of the sorted creditors |
| Optimizer.SortedHeadsAreExtreme | supabase/functions/calculate-settlements/index.ts:29-30 | the first sorted debtor has the smallest balance of all, the first sorted creditor the largest |
| Optimizer.DebtorHeadIsSmallest | supabase/functions/calculate-settlements/index.ts:29 | sorting ascending puts the largest debt first |
| Optimizer.CreditorHeadIsLargest | supabase/functions/calculate-settlements/index.ts:30 | sorting descending puts the largest credit first |
| SettlementEngine.CalculateSettlements | supabase/functions/calculate-settlements/index.ts:56-154 | the handler answers with the group's rounded balances and their greedy plan, or with the error for a missing group id |
| SettlementEngine.ResponseShape | supabase/functions/calculate-settlements/index.ts:66-144 | an error exactly when the group id is empty, with message 'Group ID is required'; otherwise distinct balances for exactly the involved users, each their net rounded, and positive transfers |
| SettlementEngine.SentAppend | supabase/functions/calculate-settlements/index.ts:115-123 | what a user sent and received over two batches of transfers adds up |
| SettlementEngine.TransfersOfSums | supabase/functions/calculate-settlements/index.ts:115-123 | recording the plan as settled transfers makes each user send what the plan has them pay and receive what it has them receive |
| SettlementEngine.SettledNet | supabase/functions/calculate-settlements/index.ts:115-123 | after recording a plan, each user's net moves by what they pay minus what they receive |
| SettlementEngine.SettlingClearsBalances | supabase/functions/calculate-settlements/index.ts:21-54 | when the rounded balances sum to zero, recording the plan leaves each user only their rounding remainder, so every new balance is within a cent of zero |
| SettlementEngine.RoundExact | supabase/functions/calculate-settlements/index.ts:128 | rounding a whole-cent amount is exact |
| SettlementEngine.RoundedTotal | supabase/functions/calculate-settlements/index.ts:125-129 | on whole-cent data the rounded balances sum to 100 times the summed nets |
| SettlementEngine.BalancedGroupTotal | supabase/functions/calculate-settlements/index.ts:103-129 | when every expense is fully split and all amounts are whole cents, the balances sum to zero |
| SettlementEngine.SettlingUpIsFinal | supabase/functions/calculate-settlements/index.ts:21-154 | on such a group, in exact cents, after recording the plan every balance is zero and the next plan is empty |
| SettlementEngine.NoDebtorsNoPlan | supabase/functions/calculate-settlements/index.ts:34 | all-zero balances give an empty plan |
| BalanceSummary.UserBalanceSpec | src/components/settlements/BalanceSummary.tsx:13 | the card's balance is the first non-zero balance, absent exactly when all balances are zero |
| BalanceSummary.BadgeSpec | src/components/settlements/BalanceSummary.tsx:26-29 | 'You Owe' for a negative, 'You Are Owed' for a positive, 'Settled Up' exactly when all are zero, which is exactly when the figure shown is zero |
| BalanceSummary.SumAbsOfDebtors | src/components/settlements/BalanceSummary.tsx:14 | summing absolute values of debts is negating their total |
| BalanceSummary.SidesSigns | src/components/settlements/BalanceSummary.tsx:14-15 | the filtered sides carry only negative and only positive amounts |
| BalanceSummary.OwedTotals | src/components/settlements/BalanceSummary.tsx:14-15 | both card totals are non-negative, zero exactly when their count is zero, and differ by the sum of the balances |
| BalanceSummary.CountsSpec | src/components/settlements/BalanceSummary.tsx:44-59 | each balance is counted on at most one card, by its sign, and none when all are zero |
| Categories.GetCategoryById | src/data/categories.ts:65-67 | the lookup always answers with an entry of the table |
| Categories.GetCategoryIcon | src/data/categories.ts:44-71 | the result is always an icon of the table, and it is `HelpCircle` exactly for an unknown name or the name 'HelpCircle', since no two names share an icon |
| Categories.FindCategoryIn | src/data/categories.ts:66 | `find` fails exactly when no entry has the id; otherwise it gives the first entry with it |
| Categories.DistinctCategoryIds | src/data/categories.ts:23-42 | no id occurs twice in the table |
| Categories.EveryIdResolves | src/data/categories.ts:23-67 | each id in the table resolves to its own entry |
| Categories.UnknownIdIsOther | src/data/categories.ts:65-67 | an unknown id resolves to 'other' with the `HelpCircle` icon |
| Categories.CategoryIconsKnown | src/data/categories.ts:23-63 | every category's icon is in the icon table, and only 'other' falls back to `HelpCircle` |
| ExpensesList.WithPayers | src/components/expenses/ExpensesList.tsx:49-55 | the enrichment keeps every expense, in order, and gives each the payer name of its payer, which `PayerNameSpec` pins down |
| ExpensesList.PayerNameSpec | src/components/expenses/ExpensesList.tsx:49-54 | the payer name is the display name of the first member with that id, or 'Unknown' when there is none or it is empty |
| ExpensesList.FindMemberFirst | src/components/expenses/ExpensesList.tsx:50 | `find` returns the first member with the id |
| ExpensesList.FindMemberAbsent | src/components/expenses/ExpensesList.tsx:50 | `find` returns nothing when no member has the id |
| ExpensesList.FilteredSpec | src/components/expenses/ExpensesList.tsx:75-82 | the list shows exactly the expenses that match the search and both selects |
| ExpensesList.FilteredIsSubsequence | src/components/expenses/ExpensesList.tsx:75-82 | the shown list keeps the original order |
| ExpensesList.NoFilterKeepsAll | src/components/expenses/ExpensesList.tsx:75-82 | with an empty search and both selects on 'all', every expense is shown |
| ExpensesList.NoFilterMatches | src/components/expenses/ExpensesList.tsx:76-79 | every expense matches the empty filter |
| ExpensesList.SearchIgnoresCase | src/components/expenses/ExpensesList.tsx:76-77 | the case of the search term does not matter |
| ExpensesList.HeaderOneLine | src/components/expenses/ExpensesList.tsx:85-87 | the header row is a single line |
| ExpensesList.JoinFree | src/components/expenses/ExpensesList.tsx:87-96 | joining cannot introduce a character that neither the pieces nor the separator hold |
| ExpensesList.ExportLineFields | src/components/expenses/ExpensesList.tsx:88-95 | a line splits back into its six fields when no field holds a comma |
| ExpensesList.ExportLines | src/components/expenses/ExpensesList.tsx:84-96 | the export is the header line followed by one line per shown expense, in order, when no field holds a line break |
| ExpenseDialog.ExpenseForm.constructor | src/components/expenses/AddExpenseDialog.tsx:33-44 | the form starts empty and closed, dated today |
| ExpenseDialog.ExpenseForm.Submit | src/components/expenses/AddExpenseDialog.tsx:77-166 | submitting records the expense and its shares and resets and closes the form; a rejected submit leaves the form untouched |
| ExpenseDialog.ExpenseForm.ResetForm | src/components/expenses/AddExpenseDialog.tsx:64-75 | every field returns to its initial value |
| ExpenseDialog.SelectedSpec | src/components/expenses/AddExpenseDialog.tsx:90 | the selected participants are exactly the users whose box is checked, each once |
| ExpenseDialog.CheckedAmongSpec | src/components/expenses/AddExpenseDialog.tsx:90 | filtering keys keeps exactly the checked ones, and never repeats one when the keys are distinct |
| ExpenseDialog.ExpenseForm.SetParticipant | src/components/expenses/AddExpenseDialog.tsx:318-322 | a checkbox change updates only the participant record and keeps it well formed |
| ExpenseDialog.SetPickSpec | src/components/expenses/AddExpenseDialog.tsx:318-322 | after one box is set, that user is selected exactly when it was checked and everyone else as before; the record stays well formed and known keys keep their place |
| ExpenseDialog.SetPickKeys | src/components/expenses/AddExpenseDialog.tsx:318-322 | setting a box adds a key at the end only when it is new, so keys stay distinct and in place |
| ExpenseDialog.SetPickSelected | src/components/expenses/AddExpenseDialog.tsx:90 | the selection follows the checked boxes |
| ExpenseDialog.SubmitChecks | src/components/expenses/AddExpenseDialog.tsx:79-128 | 'missing fields' exactly when amount, description or payer is empty; 'no participants' exactly when they are filled and nobody is checked; otherwise the expense carries the entered values |
| ExpenseDialog.SharesShape | src/components/expenses/AddExpenseDialog.tsx:134-151 | one share per selected participant, in order, each for this expense |
| ExpenseDialog.EqualPrefixSum | src/components/expenses/AddExpenseDialog.tsx:137-138 | the first n equal shares owe n times the amount divided by the number of participants |
| ExpenseDialog.EqualSplit | src/components/expenses/AddExpenseDialog.tsx:137-138 | each participant owes an equal part, and the shares add up to the amount |
| ExpenseDialog.ScaledSum | src/components/expenses/AddExpenseDialog.tsx:141-143 | shares proportional to percentages sum to the amount times the summed percentages over 100 |
| ExpenseDialog.PercentageShares | src/components/expenses/AddExpenseDialog.tsx:141-143 | each participant owes their percentage of the amount, 0 when none was entered |
| ExpenseDialog.PercentageTotal | src/components/expenses/AddExpenseDialog.tsx:141-143 | the percentage shares sum to the amount times the entered percentages over 100 |
| ExpenseDialog.PercentageAddsUp | src/components/expenses/AddExpenseDialog.tsx:141-143 | for a non-zero amount, the shares add up to it exactly when the percentages sum to 100 |
| ExpenseDialog.Distribute | src/components/expenses/AddExpenseDialog.tsx:141-143 | percentages of one amount add as the percentages do |
| ExpenseDialog.WholeShare | src/components/expenses/AddExpenseDialog.tsx:141-143 | a percentage of a non-zero amount is the whole amount exactly at 100 |
| ExpenseDialog.CustomSplit | src/components/expenses/AddExpenseDialog.tsx:139-140 | each participant owes what was entered for them, 0 when nothing was, whatever the expense amount |
| BalanceDialog.BalanceForm.constructor | src/components/settlements/AddBalanceDialog.tsx:31-34 | the form starts empty and closed |
| BalanceDialog.BalanceForm.AddBalance | src/components/settlements/AddBalanceDialog.tsx:36-92 | submitting validates the fields; success inserts the record, stamped with the current time, and resets and closes the form; failure leaves it untouched |
| BalanceDialog.ValidateRejects | src/components/settlements/AddBalanceDialog.tsx:37-63 | each of the three error messages is given exactly in its case, in order, and the record exactly otherwise |
| BalanceDialog.ValidateAccepts | src/components/settlements/AddBalanceDialog.tsx:67-76 | the record is a positive settled transfer between two different users, stamped with the current time, with the default note when none was typed |
| BalanceDialog.RecordedBalanceMoves | src/components/settlements/AddBalanceDialog.tsx:67-76 | once the settlement engine reads the record back, the payer's net rises by the amount, the receiver's falls by it, and nobody else's moves |
| CsvImport.FindByEmailSpec | src/components/import/CSVImportDialog.tsx:124 | the e-mail lookup finds the first member with that e-mail, and fails exactly when there is none |
| CsvImport.PreviewRows | src/components/import/CSVImportDialog.tsx:66-75 | the preview fails only on an empty file and otherwise shows the first up to five data rows keyed by the headers |
| CsvImport.Import | src/components/import/CSVImportDialog.tsx:95-157 | the import routine computes the import's outcome |
| CsvImport.CsvNameSpec | src/components/import/CSVImportDialog.tsx:52 | a name is accepted exactly when it is some name followed by '.csv' |
| CsvImport.ImportDialog.constructor | src/components/import/CSVImportDialog.tsx:24-27 | the dialog starts closed, with no file and no preview |
| CsvImport.ImportDialog.HandleFileChange | src/components/import/CSVImportDialog.tsx:50-75 | no file changes nothing; a name not ending in '.csv' is refused and changes nothing; otherwise the file is kept and previewed |
| CsvImport.ImportDialog.HandleImport | src/components/import/CSVImportDialog.tsx:81-189 | with no file it stops with an error; otherwise it imports the file, and a successful import clears the file and preview and closes the dialog |
| CsvImport.ImportRows | src/components/import/CSVImportDialog.tsx:113-157 | the row loop computes the outcome of the data rows |
| CsvImport.RowsStep | src/components/import/CSVImportDialog.tsx:116-156 | one row either stops the import with its error or appends its expense and its shares |
| CsvImport.PushShares | src/components/import/CSVImportDialog.tsx:148-156 | the inner loop appends one equal share per group member |
| CsvImport.FirstErrorStands | src/components/import/CSVImportDialog.tsx:124-133 | once a row fails, later rows change nothing |
| CsvImport.NonBlankSpec | src/components/import/CSVImportDialog.tsx:96 | blank lines are dropped and only they are |
| CsvImport.MissingHeadersSpec | src/components/import/CSVImportDialog.tsx:100-101 | the missing list holds exactly the required headers absent from the file |
| CsvImport.RowOfSpec | src/components/import/CSVImportDialog.tsx:117-121 | a row has exactly the headers as keys, each holding its column's value, the last column winning for a repeated header |
| CsvImport.AllSharesLength | src/components/import/CSVImportDialog.tsx:148-156 | one share per expense and member |
| CsvImport.AllSharesCover | src/components/import/CSVImportDialog.tsx:148-156 | every member owes an equal share of every imported expense |
| CsvImport.AllSharesOnly | src/components/import/CSVImportDialog.tsx:148-156 | there are no other shares |
| CsvImport.RowsOutcomeLast | src/components/import/CSVImportDialog.tsx:116-133 | the rows import exactly when the rows before the last do and the last payer is known |
| CsvImport.AllKnownLast | src/components/import/CSVImportDialog.tsx:116-133 | all rows have known payers exactly when the earlier rows and the last do |
| CsvImport.RowsOutcomeOk | src/components/import/CSVImportDialog.tsx:116-133 | the rows import exactly when every row's payer e-mail belongs to a member |
| CsvImport.RowsOutcomeLastOk | src/components/import/CSVImportDialog.tsx:116-157 | a successful import of the rows extends the import of the earlier rows by the last row's expense and shares |
| CsvImport.RowsOutcomeShape | src/components/import/CSVImportDialog.tsx:116-157 | a successful import has one expense per row, built from that row, and equal shares for every member |
| CsvImport.ExpensesSnoc | src/components/import/CSVImportDialog.tsx:137-146 | appending the last row's expense keeps every expense built from its own row |
| CsvImport.ImportAccepts | src/components/import/CSVImportDialog.tsx:96-133 | the import succeeds exactly when the file has a line, all required headers are present and every payer e-mail is known |
| CsvImport.LinesKnown | src/components/import/CSVImportDialog.tsx:116 | the data rows are the lines after the header |
| CsvImport.ImportReportsMissing | src/components/import/CSVImportDialog.tsx:100-111 | a missing-columns error lists exactly the missing required headers |
| CsvImport.RowsOutcomeErrors | src/components/import/CSVImportDialog.tsx:124-133 | the row loop fails only with an unknown e-mail |
| CsvImport.ImportCounts | src/components/import/CSVImportDialog.tsx:113-157 | a successful import has one expense per data line and one share per data line and member |
| Analytics.Analyze | src/pages/Analytics.tsx:112-188 | the page's figures are the report of the expenses in scope |
| Analytics.AddToCategory | src/pages/Analytics.tsx:118-124 | one expense keeps the category map tracking everything seen |
| Analytics.CategoryFold | src/pages/Analytics.tsx:116-125 | the category loop yields the category data |
| Analytics.AddToDay | src/pages/Analytics.tsx:166-168 | one expense keeps the day map tracking everything seen |
| Analytics.HeatmapFold | src/pages/Analytics.tsx:164-172 | the heatmap loop yields the day data |
| Analytics.AddToMember | src/pages/Analytics.tsx:141-160 | one expense keeps the member map tracking everything seen |
| Analytics.MemberFold | src/pages/Analytics.tsx:140-183 | the member loop followed by the sort yields the member data |
| Analytics.InScopeSpec | src/pages/Analytics.tsx:112-114 | under 'all', exactly the expenses of the user's groups; otherwise all expenses |
| Analytics.PostedAmounts | src/pages/Analytics.tsx:175 | posting each expense's amount totals the expenses |
| Analytics.CategoryEntriesSums | src/pages/Analytics.tsx:117-125 | the category entries carry the map's sums and counts |
| Analytics.DayEntriesSums | src/pages/Analytics.tsx:164-172 | the day entries carry the map's sums |
| Analytics.MemberEntriesSums | src/pages/Analytics.tsx:140-161 | the member entries carry the map's sums and counts |
| Analytics.CategoriesAddUp | src/pages/Analytics.tsx:117-176 | the category amounts add up to the total amount and their counts to the number of expenses |
| Analytics.HeatmapAddsUp | src/pages/Analytics.tsx:164-175 | the day amounts add up to the total amount |
| Analytics.CategoriesSpec | src/pages/Analytics.tsx:117-125 | one entry per category seen, in first-seen order, each with that category's sum and count |
| Analytics.HeatmapSpec | src/pages/Analytics.tsx:164-172 | one entry per date seen, in first-seen order, each with that date's sum |
| Analytics.InsertKeepsMemberSums | src/pages/Analytics.tsx:183 | an insertion adds the inserted member's amount and count |
| Analytics.SortKeepsMemberSums | src/pages/Analytics.tsx:183 | the sort keeps the summed amounts and counts |
| Analytics.MembersSpec | src/pages/Analytics.tsx:140-183 | the member data is ordered by amount, largest first, is a permutation of the per-member totals, has one entry per payer, and adds up to the total amount and the number of expenses |
| Analytics.PayerKeys | src/pages/Analytics.tsx:140-158 | the member map's keys are the payers, in first-seen order |
| Analytics.AverageSpec | src/pages/Analytics.tsx:175-178 | the average is 0 with no expense, and otherwise times the number of members gives the total |

## Left out

- **Supabase I/O.** Database reads and writes, HTTP, CORS and the `OPTIONS` preflight are left out. So are the `catch` path that turns a database error into a status-500 response and the insert errors in the dialogs. Reads are the `Snapshot` and `Draft` inputs; writes are return values.
- **JavaScript numbers.** Floating point is modelled by `real` and whole cents:
  - `toFixed(2)` rounding on binary doubles is `RoundCents` on exact reals;
  - `parseFloat` is a parameter (`parse`) in the CSV import;
  - in the add-balance dialog, the field's value is `Blank`, `NaN` or a number.
- **Things the model takes as given.**
  - Identifiers from `crypto.randomUUID` are the `newId` and `expenseId` parameters.
  - Number-to-text in the export is the `show` parameter.
  - The analytics profile lookup is the `profile` parameter.
  - Today's date is the `today` parameter, and the time a manual balance is settled is the `now` parameter.
- **Analytics.**
  - The monthly trend (`monthlyData`, lines 128-137 of `src/pages/Analytics.tsx`) is not modelled, because it relies on `date-fns` formatting.
  - The date-range selection (`getDateRange`) is not modelled either.
- **Text.**
  - Whitespace and case are ASCII only: `trim` treats space, tab, CR, LF, VT and FF as whitespace, and `toLowerCase` maps only A-Z.
  - JavaScript's Unicode rules are not modelled.
- **Categories.** `CATEGORY_ICONS` is a plain object, so in JavaScript a prototype key such as `toString` would also be found. The model is a map holding only the listed icons.
- **Left out of the user interface.** Receipt upload, the AI-assisted features, React loading state and effects, toasts, and the Dashboard's copies of the list and summary.
- **The CSV export does not escape fields.** A quote or comma inside a description or name is written as is. `ExpensesList.ExportLineFields` and `ExpensesList.ExportLines` therefore require fields free of the separator.
- `ExpenseDialog.CustomSplit`: the code never checks custom amounts against the expense total, so neither does the model.
- `ExpenseDialog.EqualSplit` is over exact reals. The code divides a float and never hands the rounding remainder to anyone, so float drift is not modelled.
- `Optimizer.GreedyPerUser` and `Optimizer.PlanSettlesEveryone` speak about balances already in cents. The code never checks that the balances sum to zero, so these lemmas require it rather than report an error.
- `SettlementEngine.SettlingClearsBalances` bounds each new balance by one cent rather than proving it zero. That is because each balance was rounded once. `SettlementEngine.SettlingUpIsFinal` proves it zero for whole-cent data.
- `Optimizer.WriteBack`, `Optimizer.GreedyPerUser`, `Optimizer.GreedyTotal`, `Optimizer.PlanSettlesEveryone`, `Optimizer.PlanVolume` and `SettlementEngine.SettlingUpIsFinal` hold for exact cents, not for the code's doubles. In the loop at lines 47-50 of `supabase/functions/calculate-settlements/index.ts`, a remainder of exactly one cent can come out just under `0.01` (`-5.01 + 5.00` is `-0.009999999999999787`). That closes the side while a cent is still owed. For balances A -5.01, B +5.00 and C +0.01 the code plans only A to B 5.00, and a second request then plans A to C 0.01. The model gives both transfers at once.
- `Optimizer.Debtors` and `Optimizer.Creditors` filter strictly (`< 0`, `> 0`), as the code does, so zero balances join neither side.
- `CsvImport.ImportOutcome`: `parse` returns a number, so a non-numeric amount, which `parseFloat` reads as NaN and the code inserts as is, is not modelled.
