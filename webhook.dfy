/** The voice assistant's webhook: it reads the transcript, asks the extractor for a
    transaction, stores it for a signed-in caller, and answers with a sentence for the
    assistant to speak. The extractor's oracles (key, model reply, JSON.parse outcome) and
    the outcome of the store write are parameters. */
module Webhook {
  import opened Prims
  import opened Models
  import opened Gemini
  import opened Store

  /** `metadata` as the voice assistant sends it. */
  datatype Metadata = Metadata(userId: Option<string>)

  /** The request body: unreadable (not JSON, or null), or an object with the two fields. */
  datatype RequestBody = Unreadable | Body(transcript: Option<string>, metadata: Option<Metadata>)

  const ANONYMOUS: string := "anonymous"

  /** `metadata?.userId || 'anonymous'` */
  function CallerOf(metadata: Option<Metadata>): (uid: string)
    ensures uid != ""
    ensures uid != ANONYMOUS ==> metadata.Some? && metadata.value.userId == Some(uid)
    ensures metadata.None? || !Truthy(metadata.value.userId) ==> uid == ANONYMOUS
    ensures metadata.Some? && Truthy(metadata.value.userId) ==> uid == metadata.value.userId.value
  {
    if metadata.Some? && Truthy(metadata.value.userId) then metadata.value.userId.value else ANONYMOUS
  }

  /** What the assistant is told to say. */
  datatype Reply =
    | DidntCatch                                              // no transcript
    | RecordedIncome(amount: Option<int>, description: Option<string>)
    | RecordedExpense(amount: Option<int>, category: Option<string>, description: Option<string>)
    | SaveFailed                                              // "couldn't save it"
    | LoginRequired                                           // anonymous caller
    | NoTransactionHint                                       // the example sentences
    | RetryHint                                               // "clearer financial details"
    | ServerTrouble                                           // the 500 answer

  /** The fixed sentences; the two confirmations are built from the record's fields. */
  function FixedText(r: Reply): string
    requires !r.RecordedIncome? && !r.RecordedExpense?
  {
    match r
    case DidntCatch => "I didn't catch what you said. Could you please repeat?"
    case SaveFailed => "I processed your transaction but couldn't save it. Please try again later."
    case LoginRequired =>
      "I understand you're talking about a financial transaction, but you need to be logged in to save it."
    case NoTransactionHint =>
      "I couldn't identify a financial transaction in what you said. You can try saying something like "
      + "'I spent $45 on groceries yesterday' or 'I earned $1000 from my part-time job'."
    case RetryHint => "I had trouble processing your request. Could you try again with clearer financial details?"
    case ServerTrouble => "I'm having trouble processing your request right now. Please try again later."
  }

  /** The `status` field of the answer: 'error' without a transcript, absent on the 500
      answer, 'success' otherwise. */
  function StatusOf(r: Reply): (s: Option<string>)
    ensures s == Some("error") <==> r.DidntCatch?
    ensures s.None? <==> HttpStatusOf(r) == 500
    ensures s.Some? ==> s.value == "error" || s.value == "success"
  {
    match r
    case DidntCatch => Some("error")
    case ServerTrouble => None
    case _ => Some("success")
  }

  function HttpStatusOf(r: Reply): int {
    if r.ServerTrouble? then 500 else 200
  }

  /** `{ ...transactionData, userId, createdAt: serverTimestamp() }` */
  function RecordFor(fields: ParsedFields, userId: string, serverTime: int): (t: Transaction)
    ensures t.userId == userId && t.createdAt == Some(serverTime)
    ensures t.kind == fields.kind && t.amount == fields.amount && t.category == fields.category
    ensures t.description == fields.description
    ensures t.date.Some? <==> fields.date.Some?
  {
    Transaction(userId, fields.kind, fields.category, fields.description, fields.amount,
                if fields.date.Some? then Some(IsoText(fields.date.value)) else None,
                Some(serverTime))
  }

  /** The confirmation for a stored record: income names the amount and description, any
      other type the amount, category and description. */
  function Confirmation(fields: ParsedFields): Reply {
    if fields.kind == Some(INCOME) then RecordedIncome(fields.amount, fields.description)
    else RecordedExpense(fields.amount, fields.category, fields.description)
  }

  /** One request's answer, how many times the extractor was asked, and the record the store
      holds afterwards (None when nothing was stored). */
  datatype Outcome = Outcome(reply: Reply, extractorCalls: nat, stored: Option<Transaction>)

  /** What the extractor says about a readable body with a transcript. */
  function Extraction(hasApiKey: bool, reply: ApiReply, parsed: JsonParse): Json {
    ParseFinancialTransaction(hasApiKey, reply, parsed)
  }

  /** The transcript and the extraction lead to a store write. */
  predicate WantsWrite(body: RequestBody, data: Json) {
    && body.Body? && Truthy(body.transcript)
    && data.JsonObject? && !Truthy(data.error)
    && CallerOf(body.metadata) != ANONYMOUS
  }

  /** The decision tree of POST. */
  function Decide(body: RequestBody, hasApiKey: bool, reply: ApiReply, parsed: JsonParse,
                  saveFails: bool, serverTime: int): (o: Outcome)
    // no transcript: the 'error' answer, no extraction, no write
    ensures body.Body? && !Truthy(body.transcript) ==> o == Outcome(DidntCatch, 0, None)
    // a transcript is always handed to the extractor exactly once
    ensures body.Body? && Truthy(body.transcript) ==> o.extractorCalls == 1
    // at most one record, and only a full success stores one
    ensures var data := Extraction(hasApiKey, reply, parsed);
      o.stored.Some? <==> WantsWrite(body, data) && !saveFails
    ensures var data := Extraction(hasApiKey, reply, parsed);
      o.stored.Some? ==> o.stored.value == RecordFor(data.fields, CallerOf(body.metadata), serverTime)
                         && o.reply == Confirmation(data.fields)
    // a failed write still answers 'success', with the "couldn't save it" sentence
    ensures WantsWrite(body, Extraction(hasApiKey, reply, parsed)) && saveFails ==> o.reply == SaveFailed
    // an anonymous caller is asked to log in and nothing is stored
    ensures body.Body? && Truthy(body.transcript) && CallerOf(body.metadata) == ANONYMOUS ==> o.stored.None?
    ensures var data := Extraction(hasApiKey, reply, parsed);
      (body.Body? && Truthy(body.transcript) && data.JsonObject? && !Truthy(data.error)
       && CallerOf(body.metadata) == ANONYMOUS) ==> o.reply == LoginRequired
    // tagged errors answer with a hint and store nothing
    ensures var data := Extraction(hasApiKey, reply, parsed);
      body.Body? && Truthy(body.transcript) && IsTaggedError(data) ==>
        o.stored.None? && o.reply == (if data.error.value == NO_TRANSACTION_FOUND then NoTransactionHint else RetryHint)
    // once a transcript is present the answer is 'success' unless the handler throws
    ensures body.Body? && Truthy(body.transcript) ==>
      (StatusOf(o.reply) == Some("success") <==> Extraction(hasApiKey, reply, parsed).JsonObject?)
    ensures o.reply == ServerTrouble <==> body.Unreadable? || (Truthy(body.transcript) && Extraction(hasApiKey, reply, parsed).JsonNull?)
  {
    match body
    case Unreadable => Outcome(ServerTrouble, 0, None)
    case Body(transcript, metadata) =>
      if !Truthy(transcript) then Outcome(DidntCatch, 0, None)
      else
        var userId := CallerOf(metadata);
        match Extraction(hasApiKey, reply, parsed)
        case JsonNull => Outcome(ServerTrouble, 1, None)   // `transactionData.error` throws on null
        case JsonObject(error, fields) =>
          if !Truthy(error) then
            if userId != ANONYMOUS then
              if saveFails then Outcome(SaveFailed, 1, None)
              else Outcome(Confirmation(fields), 1, Some(RecordFor(fields, userId, serverTime)))
            else Outcome(LoginRequired, 1, None)
          else if error.value == NO_TRANSACTION_FOUND then Outcome(NoTransactionHint, 1, None)
          else Outcome(RetryHint, 1, None)
  }

  /** Whatever the request, the store gains at most one record and it belongs to the caller
      named in the metadata, never to 'anonymous'. */
  lemma StoredRecordBelongsToCaller(body: RequestBody, hasApiKey: bool, reply: ApiReply, parsed: JsonParse,
                                    saveFails: bool, serverTime: int)
    ensures var o := Decide(body, hasApiKey, reply, parsed, saveFails, serverTime);
      o.stored.Some? ==>
        && body.Body? && body.metadata.Some?
        && body.metadata.value.userId == Some(o.stored.value.userId)
        && o.stored.value.userId != ANONYMOUS && o.stored.value.userId != ""
        && StatusOf(o.reply) == Some("success") && HttpStatusOf(o.reply) == 200
  {
  }

  /** POST: the decision tree, with the one possible write carried out on the store. */
  method Post(db: Database, body: RequestBody, hasApiKey: bool, reply: ApiReply, parsed: JsonParse,
              saveFails: bool, serverTime: int) returns (answer: Reply)
    modifies db
    ensures answer == Decide(body, hasApiKey, reply, parsed, saveFails, serverTime).reply
    ensures var o := Decide(body, hasApiKey, reply, parsed, saveFails, serverTime);
      db.transactions == old(db.transactions) + (if o.stored.Some? then [o.stored.value] else [])
    ensures db.goals == old(db.goals) && db.insights == old(db.insights)
  {
    if body.Unreadable? {
      return ServerTrouble;
    }
    var userId := CallerOf(body.metadata);
    if !Truthy(body.transcript) {
      return DidntCatch;
    }
    var transactionData := ParseFinancialTransaction(hasApiKey, reply, parsed);
    if transactionData.JsonNull? {
      return ServerTrouble;
    }
    if !Truthy(transactionData.error) {
      if userId != ANONYMOUS {
        var ok := db.AddTransaction(RecordFor(transactionData.fields, userId, serverTime), saveFails);
        if ok {
          answer := Confirmation(transactionData.fields);
        } else {
          answer := SaveFailed;
        }
      } else {
        answer := LoginRequired;
      }
    } else if transactionData.error.value == NO_TRANSACTION_FOUND {
      answer := NoTransactionHint;
    } else {
      answer := RetryHint;
    }
  }
}
