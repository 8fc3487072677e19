/**
 * The CSV import dialog (src/components/import/CSVImportDialog.tsx): the
 * file choice and the preview of the first rows (lines 50-75) and
 * `handleImport` (lines 81-189), which checks the header, turns every data
 * row into an expense paid by the member with the row's e-mail, and gives
 * every group member an equal share of it.
 *
 * `parse` stands for `parseFloat` and `newId(k)` for the `crypto.randomUUID()`
 * drawn for the k-th data row.
 */
module CsvImport {
  import opened Wrappers
  import opened Ledger
  import opened Text

  datatype Member = Member(userId: UserId, displayName: string, email: Option<string>)

  datatype ImportError =
    | InvalidFile
    | NoFileSelected
    | EmptyFile
    | MissingColumns(message: string)
    | UnknownEmail(message: string)

  /** A chosen file: its name and its text. */
  datatype File = File(name: string, text: string)

  /** The rows `handleImport` inserts: the expenses, then their participants. */
  datatype Batch = Batch(expenses: seq<Expense>, shares: seq<ShareRow>)

  /** A data row as the object the `reduce` builds: header to field text. */
  type Row = map<string, string>

  const Required: seq<string> := ["date", "description", "amount", "category", "paid_by_email"]

  /** `lines.filter(line => line.trim())`: the lines that are not blank. */
  function NonBlank(ls: seq<string>): seq<string>
  {
    if ls == [] then []
    else NonBlank(ls[..|ls| - 1]) + (if Trim(ls[|ls| - 1]) != "" then [ls[|ls| - 1]] else [])
  }

  /** `csv.split('\n').filter(line => line.trim())` */
  function Lines(csv: string): seq<string>
  {
    NonBlank(Split(csv, '\n'))
  }

  /** `line.split(',').map(v => v.trim())` */
  function Fields(line: string): seq<string>
  {
    var parts := Split(line, ',');
    seq(|parts|, k requires 0 <= k < |parts| => Trim(parts[k]))
  }

  /** `values[index] || ''` */
  function ValueAt(values: seq<string>, k: nat): string
  {
    if k < |values| then values[k] else ""
  }

  /** `headers.reduce((obj, header, index) => ({ ...obj, [header]: values[index] || '' }), {})` */
  function RowOf(headers: seq<string>, values: seq<string>): Row
  {
    if headers == [] then map[]
    else RowOf(headers[..|headers| - 1], values)[headers[|headers| - 1] := ValueAt(values, |headers| - 1)]
  }

  /** `row.h`, where a column the header lacks reads as empty. */
  function Field(row: Row, h: string): string
  {
    if h in row then row[h] else ""
  }

  /** `x || fallback` on text. */
  function OrElse(x: string, fallback: string): string
  {
    if x == "" then fallback else x
  }

  /** `requiredHeaders.filter(h => !headers.includes(h))` */
  function MissingHeaders(required: seq<string>, headers: seq<string>): seq<string>
  {
    if required == [] then []
    else
      var h := required[|required| - 1];
      MissingHeaders(required[..|required| - 1], headers) + (if h in headers then [] else [h])
  }

  function MissingMessage(missing: seq<string>): string
  {
    "Missing required columns: " + Join(missing, ", ")
  }

  /** `row.paid_by_email` of a data line. */
  function EmailOf(headers: seq<string>, line: string): string
  {
    Field(RowOf(headers, Fields(line)), "paid_by_email")
  }

  /** `groupMembers.find(m => m.email === email)` */
  function FindByEmail(members: seq<Member>, email: string): Option<Member>
  {
    if members == [] then None
    else if members[0].email == Some(email) then Some(members[0])
    else FindByEmail(members[1..], email)
  }

  /**
   * The first member with that e-mail, or none when no member has it (a
   * member without an e-mail never matches).
   */
  lemma {:induction false} FindByEmailSpec(members: seq<Member>, email: string)
    ensures FindByEmail(members, email).None? <==> forall m :: m in members ==> m.email != Some(email)
    ensures FindByEmail(members, email).Some? ==>
      (exists k :: 0 <= k < |members| && members[k] == FindByEmail(members, email).value
         && forall j :: 0 <= j < k ==> members[j].email != Some(email))
    ensures FindByEmail(members, email).Some? ==> FindByEmail(members, email).value.email == Some(email)
  {
    if members != [] && members[0].email != Some(email) {
      FindByEmailSpec(members[1..], email);
      assert members == [members[0]] + members[1..];
      if FindByEmail(members, email).Some? {
        var k :| 0 <= k < |members[1..]| && members[1..][k] == FindByEmail(members, email).value
          && forall j :: 0 <= j < k ==> members[1..][j].email != Some(email);
        assert members[k + 1] == FindByEmail(members, email).value;
      }
    }
  }

  /**
   * One data line on its own: the expense it becomes, or the error that
   * aborts the import when its e-mail names no member.
   */
  function RowExpense(headers: seq<string>, line: string, k: nat, members: seq<Member>, groupId: string,
                      parse: string -> real, newId: nat -> string): Result<Expense, ImportError>
  {
    var email := EmailOf(headers, line);
    match FindByEmail(members, email)
    case None => Err(UnknownEmail("Email " + email + " not found in group members"))
    case Some(payer) => Ok(ExpenseFor(RowOf(headers, Fields(line)), newId(k), payer, groupId, parse))
  }

  /** The expense pushed for a data row (lines 137-146). */
  function ExpenseFor(row: Row, id: string, payer: Member, groupId: string, parse: string -> real): Expense
  {
    Expense(id, parse(Field(row, "amount")), Field(row, "description"), OrElse(Field(row, "category"), "other"),
            Field(row, "date"), payer.userId, groupId, OrElse(Field(row, "split_method"), "equal"))
  }

  /** The participants pushed for an expense (lines 149-156): every member, an equal part. */
  function SharesFor(e: Expense, members: seq<Member>): seq<ShareRow>
  {
    seq(|members|, m requires 0 <= m < |members| => ShareRow(e.id, members[m].userId, e.amount / (|members| as real)))
  }

  /** The participants of a list of expenses, expense by expense. */
  function AllShares(es: seq<Expense>, members: seq<Member>): seq<ShareRow>
  {
    if es == [] then [] else AllShares(es[..|es| - 1], members) + SharesFor(es[|es| - 1], members)
  }

  /**
   * The outcome of the loop of lines 116-157 over the data lines `rows`:
   * the first row whose e-mail names no member aborts the whole import.
   */
  function RowsOutcome(headers: seq<string>, rows: seq<string>, members: seq<Member>, groupId: string,
                       parse: string -> real, newId: nat -> string): Result<Batch, ImportError>
  {
    if rows == [] then Ok(Batch([], []))
    else
      match RowsOutcome(headers, rows[..|rows| - 1], members, groupId, parse, newId)
      case Err(e) => Err(e)
      case Ok(b) =>
        match RowExpense(headers, rows[|rows| - 1], |rows| - 1, members, groupId, parse, newId)
        case Err(e) => Err(e)
        case Ok(e) => Ok(Batch(b.expenses + [e], b.shares + SharesFor(e, members)))
  }

  /**
   * What `handleImport` inserts for the file text `csv`, or why it stops. An
   * empty file makes `lines[0].split` throw; nothing is inserted then.
   */
  function ImportOutcome(csv: string, members: seq<Member>, groupId: string,
                         parse: string -> real, newId: nat -> string): Result<Batch, ImportError>
  {
    var lines := Lines(csv);
    if lines == [] then Err(EmptyFile)
    else
      var headers := Fields(lines[0]);
      var missing := MissingHeaders(Required, headers);
      if missing != [] then Err(MissingColumns(MissingMessage(missing)))
      else RowsOutcome(headers, lines[1..], members, groupId, parse, newId)
  }

  /** The preview table: at most the first five data rows, as row objects. */
  function Preview(csv: string): Result<seq<Row>, ImportError>
  {
    PreviewRows(Lines(csv))
  }

  /**
   * The preview of the non-blank lines: an error when there is no line,
   * otherwise up to five rows, the k-th built from data line k + 1 under the
   * header line.
   */
  function PreviewRows(lines: seq<string>): (r: Result<seq<Row>, ImportError>)
    ensures r.Err? <==> lines == []
    ensures r.Ok? ==> |r.value| <= 5 && |r.value| == (if |lines| < 6 then |lines| - 1 else 5)
    ensures r.Ok? ==> forall k :: 0 <= k < |r.value| ==>
      r.value[k] == RowOf(Fields(lines[0]), Fields(lines[k + 1]))
  {
    if lines == [] then Err(EmptyFile)
    else
      var headers := Fields(lines[0]);
      var n := if |lines| < 6 then |lines| - 1 else 5;
      Ok(seq(n, k requires 0 <= k < n => RowOf(headers, Fields(lines[k + 1]))))
  }

  /** `selectedFile.name.endsWith('.csv')` */
  predicate IsCsvName(name: string)
  {
    |name| >= 4 && name[|name| - 4..] == ".csv"
  }

  /** A name is accepted exactly when it is some name followed by '.csv'. */
  lemma CsvNameSpec(name: string, base: string)
    ensures IsCsvName(base + ".csv")
    ensures IsCsvName(name) ==> name == name[..|name| - 4] + ".csv"
    ensures |name| > 0 && name[|name| - 1] != 'v' ==> !IsCsvName(name)
  {
    assert (base + ".csv")[|base| + 4 - 4..] == ".csv";
  }

  /** The dialog's state: the chosen file, the preview rows and whether it is open. */
  class ImportDialog {
    var file: Option<File>
    var preview: seq<Row>
    var open: bool

    constructor ()
      ensures file == None && preview == [] && !open
    {
      file, preview, open := None, [], false;
    }

    /**
     * `handleFileChange` (lines 50-75): no file changes nothing; a name not
     * ending in '.csv' is refused and changes nothing; any other file is
     * kept, and its preview replaces the old one unless the file has no
     * line, where reading `lines[0]` throws before the preview is set.
     */
    method HandleFileChange(selected: Option<File>) returns (refused: bool)
      modifies this
      ensures refused <==> selected.Some? && !IsCsvName(selected.value.name)
      ensures selected.None? || refused ==> file == old(file) && preview == old(preview)
      ensures selected.Some? && !refused ==>
        file == selected
        && preview == (if Preview(selected.value.text).Ok? then Preview(selected.value.text).value else old(preview))
      ensures open == old(open)
    {
      refused := false;
      if selected.None? {
        return;
      }
      if !IsCsvName(selected.value.name) {
        refused := true;
        return;
      }
      file := selected;
      var rows := Preview(selected.value.text);
      if rows.Ok? {
        preview := rows.value;
      }
    }

    /**
     * `handleImport` (lines 81-189): with no file chosen it stops with an
     * error; otherwise it imports the file's text, and a successful import
     * clears the file and the preview and closes the dialog. A failed one
     * leaves the dialog as it was.
     */
    method HandleImport(members: seq<Member>, groupId: string, parse: string -> real, newId: nat -> string)
      returns (r: Result<Batch, ImportError>)
      modifies this
      ensures old(file).None? ==> r == Err(NoFileSelected)
      ensures old(file).Some? ==> r == ImportOutcome(old(file).value.text, members, groupId, parse, newId)
      ensures r.Ok? ==> file == None && preview == [] && !open
      ensures r.Err? ==> file == old(file) && preview == old(preview) && open == old(open)
    {
      if file.None? {
        return Err(NoFileSelected);
      }
      r := Import(file.value.text, members, groupId, parse, newId);
      if r.Ok? {
        file, preview, open := None, [], false;
      }
    }
  }

  /**
   * `handleImport`'s reader callback: the header check, then the loop that
   * pushes one expense and its participants per data line.
   */
  method Import(csv: string, members: seq<Member>, groupId: string, parse: string -> real, newId: nat -> string)
    returns (r: Result<Batch, ImportError>)
    ensures r == ImportOutcome(csv, members, groupId, parse, newId)
  {
    var lines := Lines(csv);
    if lines == [] {
      return Err(EmptyFile);
    }
    var headers := Fields(lines[0]);
    var missingHeaders := MissingHeaders(Required, headers);
    if |missingHeaders| > 0 {
      return Err(MissingColumns(MissingMessage(missingHeaders)));
    }
    r := ImportRows(headers, lines[1..], members, groupId, parse, newId);
  }

  /** The loop of lines 116-157 over the data lines. */
  method ImportRows(headers: seq<string>, rows: seq<string>, members: seq<Member>, groupId: string,
                    parse: string -> real, newId: nat -> string)
    returns (r: Result<Batch, ImportError>)
    ensures r == RowsOutcome(headers, rows, members, groupId, parse, newId)
  {
    var expenses: seq<Expense> := [];
    var participants: seq<ShareRow> := [];
    var i := 0;
    while i < |rows|
      invariant 0 <= i <= |rows|
      invariant RowsOutcome(headers, rows[..i], members, groupId, parse, newId) == Ok(Batch(expenses, participants))
    {
      var row := RowOf(headers, Fields(rows[i]));
      var paidByMember := FindByEmail(members, Field(row, "paid_by_email"));
      RowsStep(headers, rows, i, members, groupId, parse, newId);
      if paidByMember.None? {
        r := Err(UnknownEmail("Email " + Field(row, "paid_by_email") + " not found in group members"));
        FirstErrorStands(headers, rows, i + 1, members, groupId, parse, newId);
        return;
      }
      var expense := ExpenseFor(row, newId(i), paidByMember.value, groupId, parse);
      expenses := expenses + [expense];
      participants := PushShares(participants, expense, members);
      i := i + 1;
    }
    assert rows[..i] == rows;
    r := Ok(Batch(expenses, participants));
  }

  /** One more data line: the prefix outcome grows by that line's expense, or fails on it. */
  lemma RowsStep(headers: seq<string>, rows: seq<string>, i: nat, members: seq<Member>, groupId: string,
                 parse: string -> real, newId: nat -> string)
    requires i < |rows| && RowsOutcome(headers, rows[..i], members, groupId, parse, newId).Ok?
    ensures var b := RowsOutcome(headers, rows[..i], members, groupId, parse, newId).value;
      RowsOutcome(headers, rows[..i + 1], members, groupId, parse, newId)
        == match RowExpense(headers, rows[i], i, members, groupId, parse, newId)
           case Err(e) => Err(e)
           case Ok(e) => Ok(Batch(b.expenses + [e], b.shares + SharesFor(e, members)))
  {
    assert rows[..i + 1][..i] == rows[..i];
    assert rows[..i + 1][i] == rows[i];
  }

  /** `groupMembers.forEach(member => participants.push(...))` */
  method PushShares(participants: seq<ShareRow>, e: Expense, members: seq<Member>) returns (out: seq<ShareRow>)
    ensures out == participants + SharesFor(e, members)
  {
    out := participants;
    var splitAmount := if |members| == 0 then 0.0 else e.amount / (|members| as real);
    var m := 0;
    while m < |members|
      invariant 0 <= m <= |members|
      invariant out == participants + SharesFor(e, members)[..m]
    {
      out := out + [ShareRow(e.id, members[m].userId, splitAmount)];
      m := m + 1;
      assert SharesFor(e, members)[..m] == SharesFor(e, members)[..m - 1] + [SharesFor(e, members)[m - 1]];
    }
    assert SharesFor(e, members)[..m] == SharesFor(e, members);
  }

  /** Once a prefix of the rows fails, the whole import fails with that error. */
  lemma {:induction false} FirstErrorStands(headers: seq<string>, rows: seq<string>, k: nat, members: seq<Member>,
                                            groupId: string, parse: string -> real, newId: nat -> string)
    requires k <= |rows| && RowsOutcome(headers, rows[..k], members, groupId, parse, newId).Err?
    ensures RowsOutcome(headers, rows, members, groupId, parse, newId)
         == RowsOutcome(headers, rows[..k], members, groupId, parse, newId)
    decreases |rows| - k
  {
    if k < |rows| {
      assert rows[..k + 1][..k] == rows[..k];
      FirstErrorStands(headers, rows, k + 1, members, groupId, parse, newId);
    } else {
      assert rows[..k] == rows;
    }
  }

  /** The kept lines are exactly the lines of the text that are not blank, in order. */
  lemma {:induction false} NonBlankSpec(ls: seq<string>)
    ensures forall l :: l in NonBlank(ls) <==> l in ls && Trim(l) != ""
    ensures |NonBlank(ls)| <= |ls|
  {
    if ls != [] {
      NonBlankSpec(ls[..|ls| - 1]);
      assert ls == ls[..|ls| - 1] + [ls[|ls| - 1]];
    }
  }

  /** The missing columns are exactly the required ones the header lacks, in the required order. */
  lemma {:induction false} MissingHeadersSpec(required: seq<string>, headers: seq<string>)
    ensures forall h :: h in MissingHeaders(required, headers) <==> h in required && h !in headers
    ensures |MissingHeaders(required, headers)| <= |required|
  {
    if required != [] {
      MissingHeadersSpec(required[..|required| - 1], headers);
      assert required == required[..|required| - 1] + [required[|required| - 1]];
    }
  }

  /**
   * The row object has one key per header; a header maps to the field at its
   * position (the last position when the header repeats), or to '' when the
   * line has fewer fields.
   */
  lemma {:induction false} RowOfSpec(headers: seq<string>, values: seq<string>)
    ensures forall h :: h in RowOf(headers, values) <==> h in headers
    ensures forall k :: 0 <= k < |headers| && (forall j :: k < j < |headers| ==> headers[j] != headers[k]) ==>
      RowOf(headers, values)[headers[k]] == ValueAt(values, k)
  {
    if headers != [] {
      var init := headers[..|headers| - 1];
      RowOfSpec(init, values);
      assert headers == init + [headers[|headers| - 1]];
      forall k | 0 <= k < |headers| - 1 && (forall j :: k < j < |headers| ==> headers[j] != headers[k])
        ensures RowOf(headers, values)[headers[k]] == ValueAt(values, k)
      {
        assert headers[k] == init[k];
        assert forall j :: k < j < |init| ==> init[j] == headers[j];
      }
    }
  }

  /** The participants of n expenses number n times the members. */
  lemma {:induction false} AllSharesLength(es: seq<Expense>, members: seq<Member>)
    ensures |AllShares(es, members)| == |es| * |members|
  {
    if es != [] {
      AllSharesLength(es[..|es| - 1], members);
      assert |es| * |members| == (|es| - 1) * |members| + |members|;
    }
  }

  /** Every member owes an equal part of every expense. */
  lemma {:induction false} AllSharesCover(es: seq<Expense>, members: seq<Member>, k: nat, m: nat)
    requires k < |es| && m < |members|
    ensures ShareRow(es[k].id, members[m].userId, es[k].amount / (|members| as real)) in AllShares(es, members)
  {
    var init := es[..|es| - 1];
    if k < |es| - 1 {
      AllSharesCover(init, members, k, m);
      assert es[k] == init[k];
    } else {
      var sh := SharesFor(es[k], members);
      assert sh[m] in sh;
    }
  }

  /** Every participant row is an equal part of one of the expenses for one of the members. */
  lemma {:induction false} AllSharesOnly(es: seq<Expense>, members: seq<Member>, s: ShareRow)
    requires s in AllShares(es, members)
    ensures exists k, m :: (0 <= k < |es| && 0 <= m < |members|
      && s == ShareRow(es[k].id, members[m].userId, es[k].amount / (|members| as real)))
  {
    var init := es[..|es| - 1];
    var sh := SharesFor(es[|es| - 1], members);
    if s in AllShares(init, members) {
      AllSharesOnly(init, members, s);
      var k, m :| 0 <= k < |init| && 0 <= m < |members|
        && s == ShareRow(init[k].id, members[m].userId, init[k].amount / (|members| as real));
      assert es[k] == init[k];
    } else {
      var m :| 0 <= m < |sh| && sh[m] == s;
      assert s == ShareRow(es[|es| - 1].id, members[m].userId, es[|es| - 1].amount / (|members| as real));
    }
  }

  /** A data line is accepted exactly when its e-mail names a member. */
  predicate Known(headers: seq<string>, line: string, members: seq<Member>)
  {
    FindByEmail(members, EmailOf(headers, line)).Some?
  }

  /** The loop over one more line succeeds exactly when it did before and the new line is accepted. */
  lemma RowsOutcomeLast(headers: seq<string>, rows: seq<string>, members: seq<Member>,
                        groupId: string, parse: string -> real, newId: nat -> string)
    requires rows != []
    ensures RowsOutcome(headers, rows, members, groupId, parse, newId).Ok?
        <==> RowsOutcome(headers, rows[..|rows| - 1], members, groupId, parse, newId).Ok?
             && Known(headers, rows[|rows| - 1], members)
  {
  }

  /** Every line of a sequence is accepted exactly when every line but the last is, and the last is. */
  lemma AllKnownLast(headers: seq<string>, rows: seq<string>, init: seq<string>, members: seq<Member>)
    requires rows != [] && init == rows[..|rows| - 1]
    ensures (forall k :: 0 <= k < |rows| ==> Known(headers, rows[k], members))
        <==> (forall k :: 0 <= k < |init| ==> Known(headers, init[k], members))
             && Known(headers, rows[|rows| - 1], members)
  {
    assert forall k :: 0 <= k < |init| ==> init[k] == rows[k];
  }

  /** The loop succeeds exactly when every data line's e-mail names a member. */
  lemma {:induction false} RowsOutcomeOk(headers: seq<string>, rows: seq<string>, members: seq<Member>,
                                         groupId: string, parse: string -> real, newId: nat -> string)
    ensures RowsOutcome(headers, rows, members, groupId, parse, newId).Ok?
        <==> forall k :: 0 <= k < |rows| ==> Known(headers, rows[k], members)
  {
    if rows != [] {
      RowsOutcomeOk(headers, rows[..|rows| - 1], members, groupId, parse, newId);
      RowsOutcomeLast(headers, rows, members, groupId, parse, newId);
      AllKnownLast(headers, rows, rows[..|rows| - 1], members);
    }
  }

  /** The expense an accepted data line becomes. */
  function LineExpense(headers: seq<string>, line: string, k: nat, members: seq<Member>, groupId: string,
                       parse: string -> real, newId: nat -> string): Expense
    requires Known(headers, line, members)
  {
    ExpenseFor(RowOf(headers, Fields(line)), newId(k), FindByEmail(members, EmailOf(headers, line)).value,
               groupId, parse)
  }

  /** A successful loop over one more line appends that line's expense and its participants. */
  lemma RowsOutcomeLastOk(headers: seq<string>, rows: seq<string>, members: seq<Member>,
                          groupId: string, parse: string -> real, newId: nat -> string)
    requires rows != [] && RowsOutcome(headers, rows, members, groupId, parse, newId).Ok?
    ensures RowsOutcome(headers, rows[..|rows| - 1], members, groupId, parse, newId).Ok?
    ensures Known(headers, rows[|rows| - 1], members)
    ensures var b0 := RowsOutcome(headers, rows[..|rows| - 1], members, groupId, parse, newId).value;
      var e := LineExpense(headers, rows[|rows| - 1], |rows| - 1, members, groupId, parse, newId);
      RowsOutcome(headers, rows, members, groupId, parse, newId).value
        == Batch(b0.expenses + [e], b0.shares + SharesFor(e, members))
  {
  }

  /**
   * A successful loop yields one expense per data line, in order, paid by
   * the first member with the line's e-mail, and the participants of all of
   * them, expense by expense.
   */
  lemma {:induction false} RowsOutcomeShape(headers: seq<string>, rows: seq<string>, members: seq<Member>,
                                            groupId: string, parse: string -> real, newId: nat -> string)
    requires RowsOutcome(headers, rows, members, groupId, parse, newId).Ok?
    ensures var b := RowsOutcome(headers, rows, members, groupId, parse, newId).value;
      && |b.expenses| == |rows|
      && b.shares == AllShares(b.expenses, members)
      && forall k :: 0 <= k < |rows| ==>
           Known(headers, rows[k], members)
           && b.expenses[k] == LineExpense(headers, rows[k], k, members, groupId, parse, newId)
  {
    if rows != [] {
      var init := rows[..|rows| - 1];
      RowsOutcomeLastOk(headers, rows, members, groupId, parse, newId);
      RowsOutcomeShape(headers, init, members, groupId, parse, newId);
      var b := RowsOutcome(headers, rows, members, groupId, parse, newId).value;
      var b0 := RowsOutcome(headers, init, members, groupId, parse, newId).value;
      ExpensesSnoc(headers, rows, init, b.expenses, b0.expenses, members, groupId, parse, newId);
      assert b.expenses[..|b.expenses| - 1] == b0.expenses;
    }
  }

  /** The per-line description of the expenses carries over from the shorter prefix. */
  lemma ExpensesSnoc(headers: seq<string>, rows: seq<string>, init: seq<string>, es: seq<Expense>, es0: seq<Expense>,
                     members: seq<Member>, groupId: string, parse: string -> real, newId: nat -> string)
    requires rows != [] && init == rows[..|rows| - 1] && Known(headers, rows[|rows| - 1], members)
    requires es == es0 + [LineExpense(headers, rows[|rows| - 1], |rows| - 1, members, groupId, parse, newId)]
    requires |es0| == |init|
    requires forall k :: 0 <= k < |init| ==>
      Known(headers, init[k], members) && es0[k] == LineExpense(headers, init[k], k, members, groupId, parse, newId)
    ensures forall k :: 0 <= k < |rows| ==>
      Known(headers, rows[k], members) && es[k] == LineExpense(headers, rows[k], k, members, groupId, parse, newId)
  {
    forall k | 0 <= k < |rows|
      ensures Known(headers, rows[k], members) && es[k] == LineExpense(headers, rows[k], k, members, groupId, parse, newId)
    {
      if k < |init| {
        assert init[k] == rows[k];
        assert es[k] == es0[k];
      } else {
        assert k == |rows| - 1;
      }
    }
  }

  /**
   * The import inserts something exactly when the file has a line, the
   * header has every required column and every data line's e-mail names a
   * member.
   */
  lemma ImportAccepts(csv: string, members: seq<Member>, groupId: string, parse: string -> real, newId: nat -> string)
    ensures ImportOutcome(csv, members, groupId, parse, newId).Ok? <==>
      && Lines(csv) != []
      && (forall h :: h in Required ==> h in Fields(Lines(csv)[0]))
      && (forall k :: 1 <= k < |Lines(csv)| ==> Known(Fields(Lines(csv)[0]), Lines(csv)[k], members))
  {
    var lines := Lines(csv);
    if lines != [] {
      var headers := Fields(lines[0]);
      var rows := lines[1..];
      MissingHeadersSpec(Required, headers);
      if MissingHeaders(Required, headers) != [] {
        assert MissingHeaders(Required, headers)[0] in MissingHeaders(Required, headers);
      }
      RowsOutcomeOk(headers, rows, members, groupId, parse, newId);
      LinesKnown(headers, lines, rows, members);
    }
  }

  /** The data lines are the lines after the header, so "every data line" reads either way. */
  lemma LinesKnown(headers: seq<string>, lines: seq<string>, rows: seq<string>, members: seq<Member>)
    requires lines != [] && rows == lines[1..]
    ensures (forall k :: 0 <= k < |rows| ==> Known(headers, rows[k], members))
        <==> (forall k :: 1 <= k < |lines| ==> Known(headers, lines[k], members))
  {
    assert forall k :: 1 <= k < |lines| ==> lines[k] == rows[k - 1];
    assert forall k :: 0 <= k < |rows| ==> rows[k] == lines[k + 1];
  }

  /** A header that lacks columns is reported with exactly the columns it lacks, in the required order. */
  lemma ImportReportsMissing(csv: string, members: seq<Member>, groupId: string, parse: string -> real,
                             newId: nat -> string)
    requires ImportOutcome(csv, members, groupId, parse, newId).Err?
    requires ImportOutcome(csv, members, groupId, parse, newId).error.MissingColumns?
    ensures Lines(csv) != []
    ensures ImportOutcome(csv, members, groupId, parse, newId).error.message
        == MissingMessage(MissingHeaders(Required, Fields(Lines(csv)[0])))
    ensures forall h :: h in MissingHeaders(Required, Fields(Lines(csv)[0])) <==> h in Required && h !in Fields(Lines(csv)[0])
  {
    var lines := Lines(csv);
    if lines == [] {
      assert false;
    }
    var headers := Fields(lines[0]);
    MissingHeadersSpec(Required, headers);
    RowsOutcomeErrors(headers, lines[1..], members, groupId, parse, newId);
  }

  /** The loop over the data lines only ever fails on an unknown e-mail. */
  lemma {:induction false} RowsOutcomeErrors(headers: seq<string>, rows: seq<string>, members: seq<Member>,
                                             groupId: string, parse: string -> real, newId: nat -> string)
    ensures RowsOutcome(headers, rows, members, groupId, parse, newId).Err? ==>
      RowsOutcome(headers, rows, members, groupId, parse, newId).error.UnknownEmail?
  {
    if rows != [] {
      RowsOutcomeErrors(headers, rows[..|rows| - 1], members, groupId, parse, newId);
    }
  }

  /** A successful import inserts one expense per data line and one share per member for each. */
  lemma ImportCounts(csv: string, members: seq<Member>, groupId: string, parse: string -> real, newId: nat -> string)
    requires ImportOutcome(csv, members, groupId, parse, newId).Ok?
    ensures var b := ImportOutcome(csv, members, groupId, parse, newId).value;
      |b.expenses| == |Lines(csv)| - 1 && |b.shares| == (|Lines(csv)| - 1) * |members|
  {
    var lines := Lines(csv);
    var headers := Fields(lines[0]);
    var rows := lines[1..];
    RowsOutcomeShape(headers, rows, members, groupId, parse, newId);
    var b := RowsOutcome(headers, rows, members, groupId, parse, newId).value;
    AllSharesLength(b.expenses, members);
  }
}
