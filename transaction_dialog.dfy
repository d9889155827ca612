/** The dialog that records a transaction by hand: a tab picks income or expense, the
    form holds the type, category, amount, date and description, and a valid submission by a
    signed-in user appends one transaction to the store. The store write's outcome is a
    parameter; dates are milliseconds. */
module TransactionDialog {
  import opened Prims
  import opened Models
  import opened AmountField
  import opened Store

  /** `min: 0.01` rupees. */
  const MIN_AMOUNT_PAISE: nat := 1

  /** The form's values; the date picker can be cleared, so the date is optional. */
  datatype TransactionForm = TransactionForm(
    kind: string,
    category: string,
    amount: string,
    date: Option<int>,
    description: string)

  /** The default values, with the date picked when the dialog was mounted. */
  function DefaultForm(mountTime: int): TransactionForm {
    TransactionForm(EXPENSE, "", "", Some(mountTime), "")
  }

  datatype FieldError = CategoryRequired | Amount(error: AmountError) | DateRequired

  /** The messages the form shows, field by field; an empty list lets the submission through. */
  function FormErrors(f: TransactionForm): (errs: seq<FieldError>)
    ensures errs == [] <==>
      f.category != "" && CheckAmount(f.amount, MIN_AMOUNT_PAISE).AmountOk? && f.date.Some?
    ensures CategoryRequired in errs <==> f.category == ""
    ensures DateRequired in errs <==> f.date.None?
    ensures Amount(AmountRequired) in errs <==> f.amount == ""
  {
    var amount := CheckAmount(f.amount, MIN_AMOUNT_PAISE);
    (if f.category == "" then [CategoryRequired] else [])
    + (if amount.AmountRejected? then [Amount(amount.error)] else [])
    + (if f.date.None? then [DateRequired] else [])
  }

  /** `{ ...data, amount: parseFloat(data.amount), userId, createdAt: serverTimestamp() }` */
  function RecordOf(f: TransactionForm, uid: string, serverTime: int): (t: Transaction)
    requires FormErrors(f) == []
    ensures t.userId == uid && t.createdAt == Some(serverTime)
    ensures t.kind == Some(f.kind) && t.category == Some(f.category) && t.description == Some(f.description)
    ensures t.amount.Some? && t.amount.value >= MIN_AMOUNT_PAISE && t.amount.value == ParsePaise(f.amount)
    ensures t.date == Some(Instant(f.date.value))
    ensures ConformsToTypedef(t) <==> f.kind == INCOME || f.kind == EXPENSE
  {
    Transaction(uid, Some(f.kind), Some(f.category), Some(f.description),
                Some(CheckAmount(f.amount, MIN_AMOUNT_PAISE).paise), Some(Instant(f.date.value)), Some(serverTime))
  }

  /** `form.reset()` as written: back to the mount-time defaults, whose type is 'expense',
      whatever tab is showing. */
  function ResetAsWritten(defaults: TransactionForm): TransactionForm {
    defaults
  }

  /** The reset the dialog needs: the defaults, but with the type the tab is showing. */
  function ResetKeepingType(defaults: TransactionForm, tab: string): (f: TransactionForm)
    ensures f.kind == tab
    ensures f.category == defaults.category && f.amount == defaults.amount
    ensures f.date == defaults.date && f.description == defaults.description
  {
    defaults.(kind := tab)
  }

  /** After a save on the Income tab, the as-written reset leaves the Income tab showing (and
      its categories on offer) while the form's type is back to 'expense'; since the tab does
      not change, nothing sets the type again, and the next income is stored as an expense
      with an income category. */
  lemma ResetAsWrittenMislabelsIncome(mountTime: int, uid: string, serverTime: int)
    ensures var f := ResetAsWritten(DefaultForm(mountTime)).(category := "Salary", amount := AmountText(50000));
      && "Salary" in CategoriesFor(INCOME)
      && FormErrors(f) == []
      && RecordOf(f, uid, serverTime).kind == Some(EXPENSE)
      && "Salary" !in CategoriesFor(EXPENSE)
  {
    CheckAmountOfText(50000, MIN_AMOUNT_PAISE);
    assert "Salary" == INCOME_CATEGORIES[0];
  }

  /** The tab and the form agree: the tab is one of the two kinds, the form's type is the
      tab's, and the category is empty or one the select offers for the tab. */
  predicate Consistent(tab: string, f: TransactionForm) {
    && (tab == INCOME || tab == EXPENSE)
    && f.kind == tab
    && (f.category == "" || f.category in CategoriesFor(tab))
  }

  /** With the corrected reset the form stays consistent with the tab, so every record a
      consistent form saves has a type and a category of that type. */
  lemma ConsistentFormsSaveMatchingCategories(tab: string, f: TransactionForm, uid: string, serverTime: int)
    requires Consistent(tab, f) && FormErrors(f) == []
    ensures var t := RecordOf(f, uid, serverTime);
      t.kind == Some(tab) && ConformsToTypedef(t) && t.category.value in CategoriesFor(t.kind.value)
  {
  }

  lemma ResetKeepingTypeIsConsistent(mountTime: int, tab: string)
    requires tab == INCOME || tab == EXPENSE
    ensures Consistent(tab, ResetKeepingType(DefaultForm(mountTime), tab))
  {
  }

  class AddTransactionDialog {
    var open: bool
    var isSubmitting: bool
    var transactionType: string
    var form: TransactionForm
    const defaults: TransactionForm

    predicate Valid()
      reads this
    {
      && Consistent(transactionType, form)
      && defaults.category == ""
      && !isSubmitting
    }

    /** Closed, not submitting, on the Expense tab, with the default values. */
    constructor(mountTime: int)
      ensures Valid()
      ensures !open && transactionType == EXPENSE
      ensures defaults == DefaultForm(mountTime) && form == defaults
    {
      open := false;
      isSubmitting := false;
      transactionType := EXPENSE;
      defaults := DefaultForm(mountTime);
      form := DefaultForm(mountTime);
    }

    /** The trigger, Cancel, and the dialog's own close. */
    method SetOpen(value: bool)
      requires Valid()
      modifies this
      ensures Valid()
      ensures open == value
      ensures form == old(form) && transactionType == old(transactionType)
    {
      open := value;
    }

    /** handleTransactionTypeChange: the tab, the form's type, and an empty category. */
    method HandleTransactionTypeChange(value: string)
      requires Valid()
      requires value == INCOME || value == EXPENSE
      modifies this
      ensures Valid()
      ensures transactionType == value
      ensures form == old(form).(kind := value, category := "")
      ensures open == old(open)
    {
      transactionType := value;
      form := form.(kind := value);
      form := form.(category := "");
    }

    /** The user fills in the fields; the select offers only the tab's categories. */
    method Edit(category: string, amount: string, date: Option<int>, description: string)
      requires Valid()
      requires category == "" || category in CategoriesFor(transactionType)
      modifies this
      ensures Valid()
      ensures form == old(form).(category := category, amount := amount, date := date, description := description)
      ensures open == old(open) && transactionType == old(transactionType)
    {
      form := form.(category := category, amount := amount, date := date, description := description);
    }

    /** Submit: invalid values show their messages and nothing runs; otherwise, with no
        signed-in user nothing is written; a write that succeeds resets the form (keeping the
        tab's type) and closes the dialog, one that fails leaves both as they were; and the
        dialog is never left submitting. */
    method Submit(db: Database, currentUser: Option<User>, writeFails: bool, serverTime: int)
      returns (saved: bool)
      requires Valid()
      modifies this, db
      ensures Valid()
      ensures saved <==> FormErrors(old(form)) == [] && currentUser.Some? && !writeFails
      ensures db.transactions == old(db.transactions)
        + (if saved then [RecordOf(old(form), currentUser.value.uid, serverTime)] else [])
      ensures db.goals == old(db.goals) && db.insights == old(db.insights)
      ensures saved ==> form == ResetKeepingType(defaults, transactionType) && !open
      ensures !saved ==> form == old(form) && open == old(open)
      ensures transactionType == old(transactionType)
    {
      saved := false;
      if FormErrors(form) != [] {
        return;
      }
      isSubmitting := true;
      if currentUser.None? {
        isSubmitting := false;
        return;
      }
      var record := RecordOf(form, currentUser.value.uid, serverTime);
      var ok := db.AddTransaction(record, writeFails);
      if ok {
        form := ResetKeepingType(defaults, transactionType);
        open := false;
        saved := true;
      }
      isSubmitting := false;
    }
  }
}
