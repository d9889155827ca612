/** The dialog that creates a savings goal: a name, a target amount and a target date picked
    from a calendar that greys out past dates. A valid submission by a signed-in user appends
    one goal, with nothing saved yet, to the store. The store write's outcome and the clock are
    parameters; dates are milliseconds. */
module GoalDialog {
  import opened Prims
  import opened Models
  import opened AmountField
  import opened Aggregation
  import opened Store

  /** `min: 1` rupee. */
  const MIN_TARGET_PAISE: nat := 100

  /** The form's values; clicking the picked day again clears the date. */
  datatype GoalForm = GoalForm(name: string, targetAmount: string, targetDate: Option<int>)

  /** The default values, with the date picked when the dialog was mounted. */
  function DefaultGoalForm(mountTime: int): GoalForm {
    GoalForm("", "", Some(mountTime))
  }

  datatype FieldError = NameRequired | TargetAmount(error: AmountError) | TargetDateRequired

  /** The messages the form shows, field by field; an empty list lets the submission through. */
  function GoalFormErrors(f: GoalForm): (errs: seq<FieldError>)
    ensures errs == [] <==>
      f.name != "" && CheckAmount(f.targetAmount, MIN_TARGET_PAISE).AmountOk? && f.targetDate.Some?
    ensures NameRequired in errs <==> f.name == ""
    ensures TargetDateRequired in errs <==> f.targetDate.None?
    ensures TargetAmount(AmountRequired) in errs <==> f.targetAmount == ""
  {
    var amount := CheckAmount(f.targetAmount, MIN_TARGET_PAISE);
    (if f.name == "" then [NameRequired] else [])
    + (if amount.AmountRejected? then [TargetAmount(amount.error)] else [])
    + (if f.targetDate.None? then [TargetDateRequired] else [])
  }

  /** `disabled={(date) => date < new Date()}`: a day before the present moment cannot be
      picked. */
  predicate DateDisabled(date: int, now: int) {
    date < now
  }

  /** `{ ...data, targetAmount: parseFloat(data.targetAmount), currentAmount: 0, userId,
      createdAt: serverTimestamp() }` */
  function GoalRecordOf(f: GoalForm, uid: string, serverTime: int): (g: Goal)
    requires GoalFormErrors(f) == []
    ensures g.userId == uid && g.createdAt == Some(serverTime)
    ensures g.name == f.name && g.name != ""
    ensures g.currentAmount == 0
    ensures g.targetAmount == ParsePaise(f.targetAmount) && g.targetAmount >= MIN_TARGET_PAISE
    ensures g.targetDate == f.targetDate
  {
    Goal(uid, f.name, CheckAmount(f.targetAmount, MIN_TARGET_PAISE).paise, 0, f.targetDate, Some(serverTime))
  }

  /** A new goal starts with no progress and its whole target still to save. */
  lemma NewGoalStartsAtZero(f: GoalForm, uid: string, serverTime: int)
    requires GoalFormErrors(f) == []
    ensures var g := GoalRecordOf(f, uid, serverTime);
      GoalProgress(g.currentAmount, g.targetAmount) == 0
      && Remaining(g.targetAmount, g.currentAmount) == g.targetAmount
  {
    var g := GoalRecordOf(f, uid, serverTime);
    NothingSavedIsZeroProgress(g.targetAmount);
  }

  lemma NothingSavedIsZeroProgress(target: int)
    requires target > 0
    ensures GoalProgress(0, target) == 0
  {
    assert RoundDiv(0, target) == 0 by {
      assert 2 * 0 + target < 2 * target;
    }
  }

  class AddGoalDialog {
    var open: bool
    var isSubmitting: bool
    var form: GoalForm
    const defaults: GoalForm

    predicate Valid()
      reads this
    {
      !isSubmitting
    }

    /** Closed, not submitting, with the default values. */
    constructor(mountTime: int)
      ensures Valid()
      ensures !open
      ensures defaults == DefaultGoalForm(mountTime) && form == defaults
    {
      open := false;
      isSubmitting := false;
      defaults := DefaultGoalForm(mountTime);
      form := DefaultGoalForm(mountTime);
    }

    /** The trigger, Cancel, and the dialog's own close. */
    method SetOpen(value: bool)
      requires Valid()
      modifies this
      ensures Valid()
      ensures open == value && form == old(form)
    {
      open := value;
    }

    /** The user types a name and a target amount. */
    method Edit(name: string, targetAmount: string)
      requires Valid()
      modifies this
      ensures Valid()
      ensures form == old(form).(name := name, targetAmount := targetAmount)
      ensures open == old(open)
    {
      form := form.(name := name, targetAmount := targetAmount);
    }

    /** A click on the calendar at time `now`: a greyed-out past day changes nothing, any
        other day (or clearing the pick) becomes the target date. */
    method PickDate(date: Option<int>, now: int)
      requires Valid()
      modifies this
      ensures Valid()
      ensures date.Some? && DateDisabled(date.value, now) ==> form == old(form)
      ensures date.None? || !DateDisabled(date.value, now) ==> form == old(form).(targetDate := date)
      ensures form.targetDate != old(form.targetDate) ==> form.targetDate.None? || form.targetDate.value >= now
      ensures open == old(open)
    {
      if date.None? || !DateDisabled(date.value, now) {
        form := form.(targetDate := date);
      }
    }

    /** Submit: invalid values show their messages and nothing runs; otherwise, with no
        signed-in user nothing is written; a write that succeeds resets the form and closes
        the dialog, one that fails leaves both as they were; and the dialog is never left
        submitting. */
    method Submit(db: Database, currentUser: Option<User>, writeFails: bool, serverTime: int)
      returns (saved: bool)
      requires Valid()
      modifies this, db
      ensures Valid()
      ensures saved <==> GoalFormErrors(old(form)) == [] && currentUser.Some? && !writeFails
      ensures db.goals == old(db.goals)
        + (if saved then [GoalRecordOf(old(form), currentUser.value.uid, serverTime)] else [])
      ensures db.transactions == old(db.transactions) && db.insights == old(db.insights)
      ensures saved ==> form == defaults && !open
      ensures !saved ==> form == old(form) && open == old(open)
    {
      saved := false;
      if GoalFormErrors(form) != [] {
        return;
      }
      isSubmitting := true;
      if currentUser.None? {
        isSubmitting := false;
        return;
      }
      var record := GoalRecordOf(form, currentUser.value.uid, serverTime);
      var ok := db.AddGoal(record, writeFails);
      if ok {
        form := defaults;
        open := false;
        saved := true;
      }
      isSubmitting := false;
    }
  }
}
