/** The voice assistant widget: the short financial summary handed to the voice assistant,
    and the session controller whose three flags (active, connecting, muted) follow the
    buttons the user presses and the events the voice SDK reports. The SDK is represented
    by the commands the widget sends it. */
module Voice {
  import opened Prims
  import opened Models
  import opened Aggregation

  // ---------------------------------------------------------------------------------
  // summarizeFinancialData
  // ---------------------------------------------------------------------------------

  /** `Math.round((current / target) * 100 || 0)`: a whole number, or an infinity when the
      target is zero and the saved amount is not (0/0 is NaN, which `|| 0` turns into 0). */
  datatype Percent = Whole(n: int) | PosInf | NegInf

  function GoalPercent(current: int, target: int): (p: Percent)
    ensures target == 0 ==> p == (if current > 0 then PosInf else if current < 0 then NegInf else Whole(0))
    ensures target > 0 ==> p.Whole? && 200 * current - target < 2 * target * p.n <= 200 * current + target
    ensures target < 0 ==> p.Whole? && -200 * current + target < -2 * target * p.n <= -200 * current - target
  {
    if target > 0 then Whole(RoundDiv(100 * current, target))
    else if target < 0 then Whole(RoundDiv(-100 * current, -target))
    else if current > 0 then PosInf
    else if current < 0 then NegInf
    else Whole(0)
  }

  /** For a goal in progress the assistant hears the same percentage the progress bar shows. */
  lemma PercentMatchesProgress(current: int, target: int)
    requires 0 <= current <= target && target > 0
    ensures GoalPercent(current, target) == Whole(GoalProgress(current, target))
  {
    PercentageInRange(current, target);
  }

  /** `${n}` of a percentage. */
  function PercentText(p: Percent): string {
    match p
    case Whole(n) => IntToString(n)
    case PosInf => "Infinity"
    case NegInf => "-Infinity"
  }

  /** `goals.reduce((sum, goal) => sum + (goal.currentAmount || 0), 0)` */
  function TotalSaved(goals: seq<Goal>): (t: int)
    ensures goals == [] ==> t == 0
    ensures |goals| == 1 ==> t == goals[0].currentAmount
    ensures (forall i :: 0 <= i < |goals| ==> goals[i].currentAmount >= 0) ==> t >= 0
  {
    if goals == [] then 0 else TotalSaved(goals[..|goals| - 1]) + goals[|goals| - 1].currentAmount
  }

  /** The reduce adds up: the total saved over two lists of goals is the sum of their totals. */
  lemma {:induction false} TotalSavedAppend(a: seq<Goal>, b: seq<Goal>)
    ensures TotalSaved(a + b) == TotalSaved(a) + TotalSaved(b)
    decreases |b|
  {
    if b != [] {
      assert (a + b)[..|a + b| - 1] == a + b[..|b| - 1];
      TotalSavedAppend(a, b[..|b| - 1]);
    } else {
      assert a + b == a;
    }
  }

  /** `${name} (${percent}% complete)` */
  function GoalEntry(g: Goal): string {
    g.name + " (" + PercentText(GoalPercent(g.currentAmount, g.targetAmount)) + "% complete)"
  }

  /** The goal entries joined with ', '. */
  function GoalsSummary(goals: seq<Goal>): (s: string)
    ensures goals != [] ==> s != ""
  {
    if goals == [] then ""
    else if |goals| == 1 then GoalEntry(goals[0])
    else GoalsSummary(goals[..|goals| - 1]) + ", " + GoalEntry(goals[|goals| - 1])
  }

  const HEADER_START: string := "User has "

  /** A summary starts with "User has " followed by a digit. */
  predicate StartsWithHeader(s: string) {
    |s| > |HEADER_START| && s[..|HEADER_START|] == HEADER_START && '0' <= s[|HEADER_START|] <= '9'
  }

  function Header(goals: seq<Goal>, txs: seq<Transaction>): (h: string)
    ensures StartsWithHeader(h)
  {
    var count := NatToString(|goals|);
    var h := HEADER_START + count + " financial goal(s) and " + NatToString(|txs|) + " recent transaction(s). ";
    assert h[|HEADER_START|] == count[0];
    h
  }

  /** The goals clause: present exactly when there is a goal. With a goal the entries are
      never empty, so its 'None' alternative is never used. */
  function GoalsClause(goals: seq<Goal>, fmt: int -> string): (c: string)
    ensures c != "" <==> goals != []
  {
    if |goals| > 0 then
      var entries := GoalsSummary(goals);
      "Total saved towards goals: ₹" + fmt(TotalSaved(goals)) + ". Current goals: "
        + (if entries == "" then "None" else entries) + ". "
    else ""
  }

  /** The transactions clause: present exactly when there is a transaction. */
  function TransactionsClause(txs: seq<Transaction>, fmt: int -> string): (c: string)
    ensures c != "" <==> txs != []
  {
    if |txs| > 0 then
      "Recent income: ₹" + fmt(TotalIncome(txs)) + ", Recent expenses: ₹" + fmt(TotalExpenses(txs)) + "."
    else ""
  }

  /** The summary before it is shortened. */
  function BuiltSummary(goals: seq<Goal>, txs: seq<Transaction>, fmt: int -> string): (s: string)
    ensures StartsWithHeader(s)
  {
    var h := Header(goals, txs);
    var s := h + (GoalsClause(goals, fmt) + TransactionsClause(txs, fmt));
    assert s[..|HEADER_START|] == h[..|HEADER_START|];
    assert s[|HEADER_START|] == h[|HEADER_START|];
    s
  }

  const MAX_SUMMARY_LENGTH: nat := 300

  /** Cut a summary longer than 300 characters to 300 and mark it with '...', then trim. */
  function Shorten(s: string): (r: string)
    requires StartsWithHeader(s)
    ensures |r| <= MAX_SUMMARY_LENGTH + 3 && StartsWithHeader(r)
    ensures |s| <= MAX_SUMMARY_LENGTH ==> r == Trim(s)
    ensures |s| > MAX_SUMMARY_LENGTH ==> r == s[..MAX_SUMMARY_LENGTH] + "..."
  {
    if |s| > MAX_SUMMARY_LENGTH then
      var cut := s[..MAX_SUMMARY_LENGTH] + "...";
      assert cut[..|HEADER_START|] == s[..|HEADER_START|];
      assert cut[0] == 'U';
      TrimOfFramed(cut);
      cut
    else
      TrimKeepsHeader(s);
      Trim(s)
  }

  /** Trimming a summary keeps its header. */
  lemma TrimKeepsHeader(s: string)
    requires StartsWithHeader(s)
    ensures StartsWithHeader(Trim(s)) && |Trim(s)| <= |s|
  {
    assert s[0] == 'U';
    assert TrimStart(s) == s;
    var t := TrimEnd(s);
    assert !IsWhitespace(s[|HEADER_START|]);
    assert |t| > |HEADER_START|;
    assert t[..|HEADER_START|] == s[..|HEADER_START|];
  }

  /** summarizeFinancialData; `fmt` stands for the locale formatting of an amount. A summary
      longer than 300 characters is cut to 300 and marked with '...'; trimming then only
      removes the trailing space a summary without transactions ends with. */
  function SummarizeFinancialData(goals: seq<Goal>, txs: seq<Transaction>, fmt: int -> string): (r: string)
    ensures |r| <= MAX_SUMMARY_LENGTH + 3
    ensures StartsWithHeader(r)
    ensures |BuiltSummary(goals, txs, fmt)| <= MAX_SUMMARY_LENGTH ==> r == Trim(BuiltSummary(goals, txs, fmt))
    ensures |BuiltSummary(goals, txs, fmt)| > MAX_SUMMARY_LENGTH ==>
      r == BuiltSummary(goals, txs, fmt)[..MAX_SUMMARY_LENGTH] + "..."
  {
    Shorten(BuiltSummary(goals, txs, fmt))
  }

  // ---------------------------------------------------------------------------------
  // The session controller
  // ---------------------------------------------------------------------------------

  /** The widget's three flags: isSessionActive, isConnecting, isMuted. */
  datatype Flags = Flags(active: bool, connecting: bool, muted: bool)

  const IDLE: Flags := Flags(false, false, false)

  /** What can happen to the widget: a button press, or an event from the voice SDK. */
  datatype Event =
    | StartPressed        // startVapiCall
    | StartRejected       // the promise returned by start() rejects
    | StopPressed         // stopVapiCall
    | MutePressed         // toggleMute
    | CallStarted         // 'call-start'
    | CallEnded           // 'call-end'
    | CallFailed          // 'error'

  /** A call may be started with an SDK instance and a user, when no call is live or pending. */
  predicate StartAllowed(f: Flags, hasInstance: bool, signedIn: bool) {
    hasInstance && !f.active && !f.connecting && signedIn
  }

  /** Stop and mute act only on a live call. */
  predicate CallControls(f: Flags, hasInstance: bool) {
    hasInstance && f.active
  }

  /** A call is never live and pending at once. */
  predicate Exclusive(f: Flags) {
    !(f.active && f.connecting)
  }

  /** The flags after one event. */
  function Next(f: Flags, e: Event, hasInstance: bool, signedIn: bool): (g: Flags)
    ensures Exclusive(f) ==> Exclusive(g)
    ensures e == StartPressed ==> (g != f <==> StartAllowed(f, hasInstance, signedIn))
    ensures e == StartPressed && StartAllowed(f, hasInstance, signedIn) ==> g.connecting && !g.active
    ensures e == StopPressed ==> g.active == f.active && g.muted == f.muted
    ensures e == StopPressed && CallControls(f, hasInstance) ==> !g.connecting
    ensures e == MutePressed ==> g.active == f.active && g.connecting == f.connecting
    ensures e == MutePressed ==> (g.muted != f.muted <==> CallControls(f, hasInstance))
    ensures e == CallStarted ==> g == Flags(true, false, false)
    ensures e == CallEnded ==> g == IDLE
    ensures e == StopPressed && !CallControls(f, hasInstance) ==> g == f
    ensures e == StartRejected ==> g == f.(connecting := false)
    ensures e == CallFailed ==> g == f.(active := false, connecting := false)
    ensures f.active && !g.active ==> e == CallEnded || e == CallFailed
  {
    match e
    case StartPressed => if StartAllowed(f, hasInstance, signedIn) then f.(connecting := true) else f
    case StartRejected => f.(connecting := false)
    case StopPressed => if CallControls(f, hasInstance) then f.(connecting := false) else f
    case MutePressed => if CallControls(f, hasInstance) then f.(muted := !f.muted) else f
    case CallStarted => Flags(true, false, false)
    case CallEnded => IDLE
    case CallFailed => f.(active := false, connecting := false)
  }

  /** The flags after a run of events. */
  function Run(f: Flags, es: seq<Event>, hasInstance: bool, signedIn: bool): Flags
    decreases |es|
  {
    if es == [] then f else Run(Next(f, es[0], hasInstance, signedIn), es[1..], hasInstance, signedIn)
  }

  /** Whatever happens, a widget that starts idle never shows a call as live and pending at once. */
  lemma {:induction false} RunKeepsExclusive(f: Flags, es: seq<Event>, hasInstance: bool, signedIn: bool)
    requires Exclusive(f)
    ensures Exclusive(Run(f, es, hasInstance, signedIn))
    decreases |es|
  {
    if es != [] {
      RunKeepsExclusive(Next(f, es[0], hasInstance, signedIn), es[1..], hasInstance, signedIn);
    }
  }

  /** Pressing mute twice on a live call restores the flags. */
  lemma MuteTwiceRestores(f: Flags, hasInstance: bool, signedIn: bool)
    ensures Run(f, [MutePressed, MutePressed], hasInstance, signedIn) == f
  {
    assert [MutePressed, MutePressed][1..] == [MutePressed];
  }

  /** Pressing stop does not end the call: only the SDK's 'call-end' makes it idle. */
  lemma StopThenEnd(f: Flags, hasInstance: bool, signedIn: bool)
    requires CallControls(f, hasInstance)
    ensures Next(f, StopPressed, hasInstance, signedIn).active
    ensures Run(f, [StopPressed, CallEnded], hasInstance, signedIn) == IDLE
  {
    assert [StopPressed, CallEnded][1..] == [CallEnded];
  }

  /** What the widget tells the SDK. */
  datatype VapiCommand =
    | Start(userName: string, financialSummary: string, userId: string)
    | Stop
    | SetMuted(muted: bool)

  /** `user?.displayName || 'User'` */
  function UserName(u: User): (n: string)
    ensures n != ""
    ensures Truthy(u.displayName) ==> n == u.displayName.value
    ensures !Truthy(u.displayName) ==> n == "User"
  {
    if Truthy(u.displayName) then u.displayName.value else "User"
  }

  /** The unmount cleanup's guard: an instance and a call live or pending in the flags it
      reads. */
  predicate CleanupStops(hasInstance: bool, f: Flags) {
    hasInstance && (f.active || f.connecting)
  }

  /** The cleanup closure is created once, on mount, and reads the flags as they were then,
      which are idle: as written it never stops a call, even one that is live at unmount. */
  lemma CleanupAsWrittenMissesLiveCall(atUnmount: Flags)
    requires atUnmount.active || atUnmount.connecting
    ensures CleanupStops(true, atUnmount)
    ensures !CleanupStops(true, IDLE)
  {
  }

  class VoiceSession {
    const configured: bool
    var hasInstance: bool
    var isSessionActive: bool
    var isConnecting: bool
    var isMuted: bool
    var user: Option<User>
    var goals: seq<Goal>
    var transactions: seq<Transaction>
    var commands: seq<VapiCommand>

    function FlagsOf(): Flags
      reads this
    {
      Flags(isSessionActive, isConnecting, isMuted)
    }

    /** An instance exists only when the widget is configured, and a call is never live and
        pending at once. */
    predicate Valid()
      reads this
    {
      (hasInstance ==> configured) && Exclusive(FlagsOf())
    }

    /** Mounting: the SDK instance is created only when the keys are configured. */
    constructor(configured: bool, user: Option<User>, goals: seq<Goal>, transactions: seq<Transaction>)
      ensures this.configured == configured && hasInstance == configured
      ensures FlagsOf() == IDLE && commands == []
      ensures this.user == user && this.goals == goals && this.transactions == transactions
      ensures Valid()
    {
      this.configured := configured;
      hasInstance := configured;
      isSessionActive, isConnecting, isMuted := false, false, false;
      this.user := user;
      this.goals := goals;
      this.transactions := transactions;
      commands := [];
    }

    /** startVapiCall: with an instance, nothing live or pending and a user, the widget starts
        connecting and sends one start command with the user's name, the summary and the uid. */
    method StartVapiCall(fmt: int -> string)
      requires Valid()
      modifies this
      ensures Valid()
      ensures FlagsOf() == Next(old(FlagsOf()), StartPressed, hasInstance, user.Some?)
      ensures commands == old(commands) +
        (if StartAllowed(old(FlagsOf()), hasInstance, user.Some?)
         then [Start(UserName(user.value), SummarizeFinancialData(goals, transactions, fmt), user.value.uid)]
         else [])
      ensures hasInstance == old(hasInstance) && user == old(user)
      ensures goals == old(goals) && transactions == old(transactions)
    {
      if !hasInstance {
        return;
      }
      if isSessionActive || isConnecting {
        return;
      }
      if user.None? {
        return;
      }
      isConnecting := true;
      var context := SummarizeFinancialData(goals, transactions, fmt);
      commands := commands + [Start(UserName(user.value), context, user.value.uid)];
    }

    /** The start promise rejected: the widget stops connecting. */
    method OnStartRejected()
      requires Valid()
      modifies this
      ensures Valid()
      ensures FlagsOf() == Next(old(FlagsOf()), StartRejected, hasInstance, user.Some?)
      ensures commands == old(commands) && hasInstance == old(hasInstance) && user == old(user)
      ensures goals == old(goals) && transactions == old(transactions)
    {
      isConnecting := false;
    }

    /** stopVapiCall: only on a live call; stops connecting and sends a stop command, but the
        call stays active until the SDK reports 'call-end'. */
    method StopVapiCall()
      requires Valid()
      modifies this
      ensures Valid()
      ensures FlagsOf() == Next(old(FlagsOf()), StopPressed, hasInstance, user.Some?)
      ensures commands == old(commands) + (if CallControls(old(FlagsOf()), hasInstance) then [Stop] else [])
      ensures hasInstance == old(hasInstance) && user == old(user)
      ensures goals == old(goals) && transactions == old(transactions)
    {
      if !hasInstance || !isSessionActive {
        return;
      }
      isConnecting := false;
      commands := commands + [Stop];
    }

    /** toggleMute: only on a live call; flips the muted flag once and tells the SDK. */
    method ToggleMute()
      requires Valid()
      modifies this
      ensures Valid()
      ensures FlagsOf() == Next(old(FlagsOf()), MutePressed, hasInstance, user.Some?)
      ensures commands == old(commands) +
        (if CallControls(old(FlagsOf()), hasInstance) then [SetMuted(!old(isMuted))] else [])
      ensures hasInstance == old(hasInstance) && user == old(user)
      ensures goals == old(goals) && transactions == old(transactions)
    {
      if !hasInstance || !isSessionActive {
        return;
      }
      var newMutedState := !isMuted;
      commands := commands + [SetMuted(newMutedState)];
      isMuted := newMutedState;
    }

    /** An event reported by the SDK: 'call-start', 'call-end' or 'error'. */
    method OnSdkEvent(e: Event)
      requires Valid() && (e == CallStarted || e == CallEnded || e == CallFailed)
      modifies this
      ensures Valid()
      ensures FlagsOf() == Next(old(FlagsOf()), e, hasInstance, user.Some?)
      ensures commands == old(commands) && hasInstance == old(hasInstance) && user == old(user)
      ensures goals == old(goals) && transactions == old(transactions)
    {
      match e {
        case CallStarted =>
          isConnecting := false;
          isSessionActive := true;
          isMuted := false;
        case CallEnded =>
          isConnecting := false;
          isSessionActive := false;
          isMuted := false;
        case CallFailed =>
          isConnecting := false;
          isSessionActive := false;
      }
    }

    /** Unmounting: a call live or pending at unmount is stopped, and the instance is
        released. */
    method Cleanup()
      requires Valid()
      modifies this
      ensures Valid() && !hasInstance
      ensures commands == old(commands) + (if CleanupStops(old(hasInstance), FlagsOf()) then [Stop] else [])
      ensures old(FlagsOf()).active && old(hasInstance) ==> commands == old(commands) + [Stop]
      ensures FlagsOf() == old(FlagsOf()) && user == old(user)
      ensures goals == old(goals) && transactions == old(transactions)
    {
      if CleanupStops(hasInstance, FlagsOf()) {
        commands := commands + [Stop];
      }
      hasInstance := false;
    }
  }
}
