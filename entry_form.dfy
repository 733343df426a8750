/** The entry form of the main page: its income/expense mode and category list,
    validation and saving of a submitted form, loading a record handed over for
    editing, resetting the form, and the three dashboard totals. */
module EntryPage {
  import opened Ledger
  import opened Text

  datatype Mode = Income | Expense

  /** The fixed category list each mode offers, in display order. */
  function Categories(m: Mode): seq<string> {
    match m
    case Income => ["Gaji", "Bonus", "Hadiah", "Lainnya"]
    case Expense => ["Makanan", "Transportasi", "Tagihan", "Hiburan", "Belanja", "Kesehatan", "Lainnya"]
  }

  /** The values of the form's inputs. `amount` is the number the amount input
      converts to; 0 stands for every falsy conversion (empty, not a number, zero). */
  datatype FormFields = FormFields(text: string, amount: int, date: string, category: string)

  /** The form after a reset: empty label and amount, today's date, and the
      first income category selected. */
  function BlankForm(today: string): FormFields {
    FormFields("", 0, today, Categories(Income)[0])
  }

  /** The submit guard: a non-blank label, a non-zero amount and a date. */
  predicate IsComplete(f: FormFields) {
    Trim(f.text) != "" && f.amount != 0 && f.date != ""
  }

  /** The amount stored for an entered amount: as entered for income, negated for expense. */
  function Signed(m: Mode, amount: int): int {
    if m == Income then amount else -amount
  }

  /** The mode a stored amount is edited in. */
  function ModeOf(amount: int): Mode {
    if amount > 0 then Income else Expense
  }

  /** A record with the submitted fields spread over it; its id is kept. */
  function Merge(t: Transaction, f: FormFields, m: Mode): Transaction {
    t.(text := Trim(f.text), amount := Signed(m, f.amount), date := f.date, category := f.category)
  }

  /** What the form shows for a record opened for editing. Assigning a value
      that none of the select's options carries leaves the select with value "". */
  function Prefill(t: Transaction, options: seq<string>): FormFields {
    FormFields(t.text, Abs(t.amount), t.date, if t.category in options then t.category else "")
  }

  /** Index `j` holds the first record whose id is `id`. */
  predicate IsFirstWithId(s: seq<Transaction>, j: int, id: int) {
    0 <= j < |s| && s[j].id == id && forall k :: 0 <= k < j ==> s[k].id != id
  }

  /** The collection after an edit of record `id`: the first record carrying
      `id` takes the submitted values, keeping its id and position. */
  function ApplyEdit(s: seq<Transaction>, id: int, f: FormFields, m: Mode): (r: seq<Transaction>)
    ensures |r| == |s|
    ensures forall j :: 0 <= j < |s| ==> r[j] == if IsFirstWithId(s, j, id) then Merge(s[j], f, m) else s[j]
    ensures forall j :: 0 <= j < |s| ==> r[j].id == s[j].id
    ensures !HasId(s, id) ==> r == s
  {
    match FindIndex(s, id)
    case None => s
    case Some(i) => s[i := Merge(s[i], f, m)]
  }

  /** An edit keeps the ids unique: it changes no record's id. */
  lemma {:induction false} EditKeepsIdsUnique(s: seq<Transaction>, id: int, f: FormFields, m: Mode)
    ensures UniqueIds(s) ==> UniqueIds(ApplyEdit(s, id, f, m))
  {
    var r := ApplyEdit(s, id, f, m);
    assert forall i, j :: 0 <= i < j < |r| ==> r[i].id == s[i].id && r[j].id == s[j].id;
  }

  /** Appending a record whose id no record carries keeps the ids unique. */
  lemma {:induction false} AppendKeepsIdsUnique(s: seq<Transaction>, t: Transaction)
    ensures UniqueIds(s) && !HasId(s, t.id) ==> UniqueIds(s + [t])
  {
    if UniqueIds(s) && !HasId(s, t.id) {
      forall i, j | 0 <= i < j < |s| + 1
        ensures (s + [t])[i].id != (s + [t])[j].id
      {
        if j == |s| {
          assert s[i].id != t.id;
        }
      }
    }
  }

  /** The collection after a complete submission. With an edit in progress the
      first record carrying the edited id takes the submitted values and keeps
      its id and position; otherwise a record with `freshId` is appended.
      Unique ids stay unique provided a new record's id is not in use. */
  function Save(s: seq<Transaction>, editing: Option<int>, f: FormFields, m: Mode, freshId: int): (r: seq<Transaction>)
    ensures editing.None? ==> |r| == |s| + 1 && r[..|s|] == s
    ensures editing.None? ==> r[|s|] == Transaction(freshId, Trim(f.text), Signed(m, f.amount), f.date, f.category)
    ensures editing.Some? ==> |r| == |s|
    ensures editing.Some? ==>
              forall j :: 0 <= j < |s| ==> r[j] == if IsFirstWithId(s, j, editing.value) then Merge(s[j], f, m) else s[j]
    ensures UniqueIds(s) && (editing.Some? || !HasId(s, freshId)) ==> UniqueIds(r)
  {
    match editing
    case Some(id) =>
      EditKeepsIdsUnique(s, id, f, m);
      ApplyEdit(s, id, f, m)
    case None =>
      var added := Transaction(freshId, Trim(f.text), Signed(m, f.amount), f.date, f.category);
      AppendKeepsIdsUnique(s, added);
      s + [added]
  }

  datatype Totals = Totals(balance: int, income: int, expense: int)

  /** The dashboard figures: the sum of all amounts, the sum of the positive
      ones, and the magnitude of the sum of the negative ones. */
  function Dashboard(s: seq<Transaction>): (r: Totals)
    ensures r.balance == r.income - r.expense
    ensures r.income >= 0 && r.expense >= 0
  {
    BalanceSplits(s);
    SumNonNegative(s, IncomeOnly);
    SumNonNegative(s, ExpenseOnly);
    Totals(Sum(s, Amount), Sum(s, IncomeOnly), Sum(s, ExpenseOnly))
  }

  /** Opening a stored record for editing and submitting the form untouched
      gives back the same record, provided its amount is non-zero, its label
      trimmed, and its category in the list of the mode its sign selects. */
  lemma EditRoundTrip(t: Transaction)
    requires t.amount != 0 && Trim(t.text) == t.text
    requires t.category in Categories(ModeOf(t.amount))
    ensures Merge(t, Prefill(t, Categories(ModeOf(t.amount))), ModeOf(t.amount)) == t
  {
  }

  /** When the category is not in the list of the mode the sign selects, the
      select cannot show it, and submitting the opened form untouched stores
      the empty category. */
  lemma EditBlanksForeignCategory(t: Transaction)
    requires t.category !in Categories(ModeOf(t.amount))
    ensures Merge(t, Prefill(t, Categories(ModeOf(t.amount))), ModeOf(t.amount)).category == ""
  {
  }

  /** The submit guard lets a negative amount through, and expense mode then
      stores it as a positive one: an income record that keeps an expense
      category, which the income list does not offer, so the record cannot be
      edited without losing its category. */
  lemma {:induction false} NegatedExpenseIsForeign(s: seq<Transaction>, f: FormFields, freshId: int)
    requires IsComplete(f) && f.amount < 0
    requires f.category in Categories(Expense) && f.category !in Categories(Income)
    ensures var r := Save(s, None, f, Expense, freshId);
            var t := r[|s|];
            t.amount == -f.amount > 0 && ModeOf(t.amount) == Income &&
            t.category == f.category && t.category !in Categories(ModeOf(t.amount))
  {
  }

  class EntryForm {
    var transactions: seq<Transaction>  // the stored collection
    var pendingEdit: Option<int>        // the stored pointer to a record to open for editing
    var isEditing: bool
    var editID: Option<int>
    var formMode: Mode
    var categoryOptions: seq<string>    // the options of the category select
    var form: FormFields                // what the form inputs show
    var dashboard: Totals               // the figures the dashboard shows

    ghost predicate Valid()
      reads this
    {
      isEditing == editID.Some? &&
      categoryOptions == Categories(formMode) &&
      dashboard == Dashboard(transactions)
    }

    /** Page start-up: show the dashboard for the stored collection, open the
        pending record if the pointer resolves, otherwise start a blank income form. */
    constructor (stored: seq<Transaction>, pending: Option<int>, today: string)
      ensures Valid()
      ensures transactions == stored
      ensures isEditing <==> pending.Some? && HasId(stored, pending.value)
      ensures isEditing ==> editID == pending && pendingEdit == pending
      ensures isEditing ==> var t := stored[FindIndex(stored, pending.value).value];
                            formMode == ModeOf(t.amount) && form == Prefill(t, Categories(formMode))
      ensures !isEditing ==> editID == None && pendingEdit == None && formMode == Income
      ensures !isEditing ==> form == BlankForm(today)
    {
      transactions := stored;
      pendingEdit := pending;
      isEditing := false;
      editID := None;
      formMode := Income;
      categoryOptions := Categories(Income);
      form := FormFields("", 0, "", "");
      dashboard := Dashboard(stored);
      new;
      LoadForEdit();
      if !isEditing {
        ResetForm(today);
      }
    }

    /** Switches the mode and refills the category select with that mode's list;
        the select then shows its first option. */
    method SetFormMode(m: Mode)
      requires Valid()
      modifies this
      ensures Valid()
      ensures formMode == m && categoryOptions == Categories(m)
      ensures form == old(form).(category := Categories(m)[0])
      ensures transactions == old(transactions) && dashboard == old(dashboard)
      ensures isEditing == old(isEditing) && editID == old(editID) && pendingEdit == old(pendingEdit)
    {
      formMode := m;
      categoryOptions := Categories(m);
      form := form.(category := categoryOptions[0]);
    }

    /** Leaves edit mode, forgets the pending pointer and shows a blank income form. */
    method ResetForm(today: string)
      requires Valid()
      modifies this
      ensures Valid()
      ensures !isEditing && editID == None && pendingEdit == None
      ensures formMode == Income && categoryOptions == Categories(Income)
      ensures form == BlankForm(today)
      ensures transactions == old(transactions) && dashboard == old(dashboard)
    {
      isEditing := false;
      editID := None;
      form := FormFields("", 0, today, categoryOptions[0]);
      pendingEdit := None;
      SetFormMode(Income);
    }

    /** Opens the record the pending pointer names. A pointer that resolves to no
        record is dropped; the collection is never changed. */
    method LoadForEdit()
      requires Valid()
      modifies this
      ensures Valid()
      ensures transactions == old(transactions) && dashboard == old(dashboard)
      ensures old(pendingEdit).None? ==> unchanged(this)
      ensures old(pendingEdit).Some? && !HasId(transactions, old(pendingEdit).value) ==>
                pendingEdit == None && isEditing == old(isEditing) && editID == old(editID) &&
                formMode == old(formMode) && form == old(form)
      ensures old(pendingEdit).Some? && HasId(transactions, old(pendingEdit).value) ==>
                var t := transactions[FindIndex(transactions, old(pendingEdit).value).value];
                isEditing && editID == Some(t.id) && pendingEdit == old(pendingEdit) &&
                formMode == ModeOf(t.amount) && form == Prefill(t, Categories(formMode))
    {
      if pendingEdit.None? {
        return;
      }
      var index := FindIndex(transactions, pendingEdit.value);
      if index.None? {
        pendingEdit := None;
        return;
      }
      var t := transactions[index.value];
      isEditing := true;
      editID := Some(t.id);
      SetFormMode(ModeOf(t.amount));
      form := Prefill(t, categoryOptions);
    }

    /** Writes a complete submission into the collection: the record being
        edited takes the new values (its id and position stay), or a new record
        with `freshId` is appended; then the dashboard is recomputed. The edit
        state and the form are left as they are. */
    method Store(input: FormFields, freshId: int)
      requires Valid()
      modifies this
      ensures Valid()
      ensures transactions == Save(old(transactions), editID, input, formMode, freshId)
      ensures isEditing == old(isEditing) && editID == old(editID) && pendingEdit == old(pendingEdit)
      ensures formMode == old(formMode) && form == old(form)
    {
      ghost var before := transactions;
      if isEditing {
        var index := FindIndex(transactions, editID.value);
        if index.Some? {
          transactions := transactions[index.value := Merge(transactions[index.value], input, formMode)];
        }
        assert transactions == ApplyEdit(before, editID.value, input, formMode);
      } else {
        transactions := transactions + [Transaction(freshId, Trim(input.text), Signed(formMode, input.amount), input.date, input.category)];
      }
      dashboard := Dashboard(transactions);
    }

    /** Submission of the form with the given input values. An incomplete form
        changes nothing. Otherwise the submission is stored and the form reset. */
    method Submit(input: FormFields, freshId: int, today: string) returns (saved: bool)
      requires Valid()
      modifies this
      ensures Valid()
      ensures saved <==> IsComplete(input)
      ensures !saved ==> unchanged(this)
      ensures saved ==> transactions == Save(old(transactions), old(editID), input, old(formMode), freshId)
      ensures saved ==> !isEditing && editID == None && pendingEdit == None
      ensures saved ==> formMode == Income && form == BlankForm(today)
    {
      var text := Trim(input.text);
      if text == [] || input.amount == 0 || input.date == [] {
        return false;
      }
      Store(input, freshId);
      ResetForm(today);
      saved := true;
    }
  }
}
