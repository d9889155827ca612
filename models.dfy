/** The records of the finance app (transactions, goals, users) and the fixed category
    lists offered by the transaction form. */
module Models {
  import opened Prims

  /** The two transaction kinds. */
  datatype TransactionType = Income | Expense

  const INCOME: string := "income"
  const EXPENSE: string := "expense"

  /** The string stored in a record's `type` field. */
  function TypeName(t: TransactionType): string {
    match t
    case Income => INCOME
    case Expense => EXPENSE
  }

  /** A transaction type is exactly 'income' or 'expense'. */
  function ParseTransactionType(s: string): (r: Option<TransactionType>)
    ensures r.Some? <==> (s == INCOME || s == EXPENSE)
    ensures r.Some? ==> TypeName(r.value) == s
  {
    if s == INCOME then Some(Income)
    else if s == EXPENSE then Some(Expense)
    else None
  }

  lemma TypeNameRoundTrip(t: TransactionType)
    ensures ParseTransactionType(TypeName(t)) == Some(t)
  {
  }

  /** A date as the store holds it: a point in time in milliseconds, or (for records
      written from a voice transcript) the text the language model produced. */
  datatype DateValue = Instant(ms: int) | IsoText(text: string)

  /** A transaction document. Documents are loosely typed: a record written from a
      voice transcript may carry null in any field, so every field but the owner is optional.
      Amounts are in paise (hundredths of a rupee). */
  datatype Transaction = Transaction(
    userId: string,
    kind: Option<string>,
    category: Option<string>,
    description: Option<string>,
    amount: Option<int>,
    date: Option<DateValue>,
    createdAt: Option<int>)

  /** The declared shape of a Transaction: every field is required except `description`,
      and the type is one of the two kinds. */
  predicate ConformsToTypedef(t: Transaction) {
    && t.kind.Some? && ParseTransactionType(t.kind.value).Some?
    && t.category.Some?
    && t.amount.Some?
    && t.date.Some?
    && t.createdAt.Some?
  }

  /** Dropping or adding a description never changes whether a record has the declared shape. */
  lemma DescriptionIsOptional(t: Transaction, d: Option<string>)
    ensures ConformsToTypedef(t.(description := d)) == ConformsToTypedef(t)
  {
  }

  /** A savings goal; amounts in paise, dates in milliseconds. */
  datatype Goal = Goal(
    userId: string,
    name: string,
    targetAmount: int,
    currentAmount: int,
    targetDate: Option<int>,
    createdAt: Option<int>)

  /** The signed-in user as the client sees it. */
  datatype User = User(uid: string, displayName: Option<string>)

  const INCOME_CATEGORIES: seq<string> :=
    ["Salary", "Business", "Investments", "Freelance", "Other Income"]

  const EXPENSE_CATEGORIES: seq<string> :=
    ["Housing", "Transportation", "Food", "Utilities", "Healthcare",
     "Education", "Shopping", "Entertainment", "Savings", "Other Expenses"]

  predicate NoDuplicates(s: seq<string>) {
    forall i, j :: 0 <= i < j < |s| ==> s[i] != s[j]
  }

  /** Five income categories, ten expense categories, no repeats, and no category in both lists. */
  lemma CategoryListsWellFormed()
    ensures |INCOME_CATEGORIES| == 5 && |EXPENSE_CATEGORIES| == 10
    ensures NoDuplicates(INCOME_CATEGORIES) && NoDuplicates(EXPENSE_CATEGORIES)
    ensures forall c :: c in INCOME_CATEGORIES ==> c !in EXPENSE_CATEGORIES
  {
  }

  /** The categories the transaction form offers for a kind. */
  function CategoriesFor(kind: string): seq<string> {
    if kind == EXPENSE then EXPENSE_CATEGORIES else INCOME_CATEGORIES
  }
}
