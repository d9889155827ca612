/** The insights endpoint: it names the caller from the Authorization header, reads the
    caller's transactions and goals from the store, generates insights (or answers early),
    and caches them under the caller's id. Whether the reads and the cache write succeed is
    a parameter, and so are the generator's oracles. */
module InsightsRoute {
  import opened Prims
  import opened Models
  import opened Gemini
  import opened Store

  // ---------------------------------------------------------------------------------
  // getUserId
  // ---------------------------------------------------------------------------------

  const BEARER: string := "Bearer "

  /** The text before the first space (all of it when there is none). */
  function UpToSpace(s: string): (r: string)
    ensures |r| <= |s| && r == s[..|r|]
    ensures forall i :: 0 <= i < |r| ==> r[i] != ' '
    ensures |r| == |s| || s[|r|] == ' '
  {
    if s == [] || s[0] == ' ' then [] else [s[0]] + UpToSpace(s[1..])
  }

  predicate HasBearerPrefix(header: string) {
    |header| >= |BEARER| && header[..|BEARER|] == BEARER
  }

  /** getUserId: null unless the header starts with "Bearer ", else the second field of the
      header split at spaces, which is what follows "Bearer " up to the next space. */
  function GetUserId(header: Option<string>): (r: Option<string>)
    ensures r.Some? <==> header.Some? && HasBearerPrefix(header.value)
    ensures r.Some? ==>
      var n := |BEARER| + |r.value|;
      && (forall i :: 0 <= i < |r.value| ==> r.value[i] != ' ')
      && n <= |header.value| && header.value[..n] == BEARER + r.value
      && (n == |header.value| || header.value[n] == ' ')
  {
    if header.None? || !HasBearerPrefix(header.value) then None
    else
      var rest := header.value[|BEARER|..];
      var id := UpToSpace(rest);
      assert header.value == BEARER + rest;
      assert header.value[..|BEARER| + |id|] == BEARER + id;
      Some(id)
  }

  lemma {:induction false} UpToSpaceOfWord(w: string, tail: string)
    requires forall i :: 0 <= i < |w| ==> w[i] != ' '
    requires tail == [] || tail[0] == ' '
    ensures UpToSpace(w + tail) == w
  {
    if w != [] {
      assert (w + tail)[0] == w[0];
      assert (w + tail)[1..] == w[1..] + tail;
      UpToSpaceOfWord(w[1..], tail);
    } else {
      assert w + tail == tail;
    }
  }

  /** The header the dashboard sends, `Bearer <uid>`, names that uid back when the uid has no
      space; anything after a further space is ignored. */
  lemma BearerRoundTrip(uid: string, tail: string)
    requires forall i :: 0 <= i < |uid| ==> uid[i] != ' '
    requires tail == [] || tail[0] == ' '
    ensures GetUserId(Some(BEARER + uid + tail)) == Some(uid)
  {
    var h := BEARER + uid + tail;
    assert h[..|BEARER|] == BEARER;
    assert h[|BEARER|..] == uid + tail;
    UpToSpaceOfWord(uid, tail);
  }

  /** A request is served only when getUserId names a non-empty id. */
  predicate Authorized(header: Option<string>) {
    GetUserId(header).Some? && GetUserId(header).value != ""
  }

  // ---------------------------------------------------------------------------------
  // The caller's documents
  // ---------------------------------------------------------------------------------

  /** The transactions a query `where('userId', '==', uid)` returns, in store order. */
  function OwnedTransactions(txs: seq<Transaction>, uid: string): (r: seq<Transaction>)
    ensures |r| <= |txs|
    ensures forall t :: t in r <==> t in txs && t.userId == uid
  {
    if txs == [] then []
    else
      var init := OwnedTransactions(txs[..|txs| - 1], uid);
      var t := txs[|txs| - 1];
      assert txs == txs[..|txs| - 1] + [t];
      if t.userId == uid then init + [t] else init
  }

  /** The goals a query `where('userId', '==', uid)` returns, in store order. */
  function OwnedGoals(goals: seq<Goal>, uid: string): (r: seq<Goal>)
    ensures |r| <= |goals|
    ensures forall g :: g in r <==> g in goals && g.userId == uid
  {
    if goals == [] then []
    else
      var init := OwnedGoals(goals[..|goals| - 1], uid);
      var g := goals[|goals| - 1];
      assert goals == goals[..|goals| - 1] + [g];
      if g.userId == uid then init + [g] else init
  }

  // ---------------------------------------------------------------------------------
  // GET
  // ---------------------------------------------------------------------------------

  /** The endpoint's answers: 401, the "Unable to Access Data" text with the read error, the
      fixed "No Data Available Yet" text, or the generated insights. */
  datatype RouteResponse =
    | Unauthorized
    | AccessError(message: string)
    | NoDataYet
    | Generated(insights: Insights)

  function HttpStatusOf(r: RouteResponse): int {
    if r.Unauthorized? then 401 else 200
  }

  /** The answer GET gives for a header, the store's documents, the outcome of the reads
      (None when they succeed, else the error's message) and the generator's oracles. */
  function GetResponse(header: Option<string>, storeTxs: seq<Transaction>, storeGoals: seq<Goal>,
                       readError: Option<string>, hasApiKey: bool, reply: ApiReply, now: int): (r: RouteResponse)
    ensures r.Unauthorized? <==> !Authorized(header)
    ensures r.AccessError? <==> Authorized(header) && readError.Some?
    ensures r.AccessError? ==> r.message == readError.value
    ensures r.NoDataYet? <==>
      Authorized(header) && readError.None?
      && OwnedTransactions(storeTxs, GetUserId(header).value) == []
      && OwnedGoals(storeGoals, GetUserId(header).value) == []
    ensures r.Generated? ==>
      var uid := GetUserId(header).value;
      r.insights == GenerateFinancialInsights(OwnedTransactions(storeTxs, uid), OwnedGoals(storeGoals, uid),
                                              hasApiKey, reply, now).insights
  {
    var userId := GetUserId(header);
    if userId.None? || userId.value == "" then Unauthorized
    else if readError.Some? then AccessError(readError.value)
    else
      var txs := OwnedTransactions(storeTxs, userId.value);
      var goals := OwnedGoals(storeGoals, userId.value);
      if txs == [] && goals == [] then NoDataYet
      else Generated(GenerateFinancialInsights(txs, goals, hasApiKey, reply, now).insights)
  }

  /** Generated insights are always about the caller's own documents: a store holding
      documents of other users only yields the same answer as the store without them. */
  lemma OtherUsersIgnored(header: Option<string>, storeTxs: seq<Transaction>, storeGoals: seq<Goal>,
                          t: Transaction, readError: Option<string>, hasApiKey: bool, reply: ApiReply, now: int)
    requires Authorized(header) && t.userId != GetUserId(header).value
    ensures GetResponse(header, storeTxs + [t], storeGoals, readError, hasApiKey, reply, now)
         == GetResponse(header, storeTxs, storeGoals, readError, hasApiKey, reply, now)
  {
    assert (storeTxs + [t])[..|storeTxs|] == storeTxs;
  }

  /** The fields GET caches: `{ content, userId, createdAt, transactions, goals }`. */
  function CacheFields(uid: string, insights: Insights, transactionCount: nat, goalCount: nat, now: int): (f: Fields)
    ensures f.Keys == {"content", "userId", "createdAt", "transactions", "goals"}
    ensures f["content"] == Markdown(insights.content) && f["userId"] == Text(uid)
    ensures f["createdAt"] == Time(now)
    ensures f["transactions"] == Count(transactionCount) && f["goals"] == Count(goalCount)
  {
    map["content" := Markdown(insights.content), "userId" := Text(uid), "createdAt" := Time(now),
        "transactions" := Count(transactionCount), "goals" := Count(goalCount)]
  }

  /** The documents of `uid`, read one snapshot document at a time. */
  method ReadTransactions(db: Database, uid: string) returns (txs: seq<Transaction>)
    ensures txs == OwnedTransactions(db.transactions, uid)
  {
    txs := [];
    for i := 0 to |db.transactions|
      invariant txs == OwnedTransactions(db.transactions[..i], uid)
    {
      assert db.transactions[..i + 1][..i] == db.transactions[..i];
      if db.transactions[i].userId == uid {
        txs := txs + [db.transactions[i]];
      }
    }
    assert db.transactions[..|db.transactions|] == db.transactions;
  }

  method ReadGoals(db: Database, uid: string) returns (goals: seq<Goal>)
    ensures goals == OwnedGoals(db.goals, uid)
  {
    goals := [];
    for i := 0 to |db.goals|
      invariant goals == OwnedGoals(db.goals[..i], uid)
    {
      assert db.goals[..i + 1][..i] == db.goals[..i];
      if db.goals[i].userId == uid {
        goals := goals + [db.goals[i]];
      }
    }
    assert db.goals[..|db.goals|] == db.goals;
  }

  /** GET: answers as GetResponse says; only generated insights are cached, under the
      caller's id and merged into what was there, and a failed cache write changes nothing
      but does not change the answer either. */
  method Get(db: Database, header: Option<string>, readError: Option<string>, hasApiKey: bool,
             reply: ApiReply, cacheFails: bool, now: int) returns (r: RouteResponse)
    modifies db
    ensures r == GetResponse(header, old(db.transactions), old(db.goals), readError, hasApiKey, reply, now)
    ensures db.transactions == old(db.transactions) && db.goals == old(db.goals)
    ensures r.Generated? && !cacheFails ==>
      var uid := GetUserId(header).value;
      db.insights == old(db.insights)[uid := MergeFields(
        if uid in old(db.insights) then old(db.insights)[uid] else map[],
        CacheFields(uid, r.insights, |OwnedTransactions(db.transactions, uid)|,
                    |OwnedGoals(db.goals, uid)|, now))]
    ensures !r.Generated? || cacheFails ==> db.insights == old(db.insights)
  {
    var userId := GetUserId(header);
    if userId.None? || userId.value == "" {
      return Unauthorized;
    }
    var uid := userId.value;
    if readError.Some? {
      return AccessError(readError.value);
    }
    var transactions := ReadTransactions(db, uid);
    var goals := ReadGoals(db, uid);
    if |transactions| == 0 && |goals| == 0 {
      return NoDataYet;
    }
    var insights := GenerateFinancialInsights(transactions, goals, hasApiKey, reply, now).insights;
    var _ := db.MergeInsights(uid, CacheFields(uid, insights, |transactions|, |goals|, now), cacheFails);
    r := Generated(insights);
  }
}
