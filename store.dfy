/** The document store the app writes to: the `transactions` and `goals` collections, which
    only ever grow by one appended document, and the `insights` collection, whose documents
    are keyed by user id and updated by merging fields. Whether a write succeeds is decided
    outside the app, so every write takes its outcome as a parameter. */
module Store {
  import opened Models
  import Gemini

  /** A field value of a cached insights document. */
  datatype FieldValue =
    | Text(text: string)
    | Count(count: int)
    | Time(ms: int)
    | Markdown(content: Gemini.Content)

  type Fields = map<string, FieldValue>

  /** `setDoc(ref, fields, { merge: true })`: the new fields replace those of the same name,
      every other field of the document is kept. */
  function MergeFields(existing: Fields, fields: Fields): (r: Fields)
    ensures r.Keys == existing.Keys + fields.Keys
    ensures forall k :: k in fields ==> r[k] == fields[k]
    ensures forall k :: k in existing && k !in fields ==> r[k] == existing[k]
  {
    existing + fields
  }

  class Database {
    var transactions: seq<Transaction>
    var goals: seq<Goal>
    var insights: map<string, Fields>

    constructor(transactions: seq<Transaction>, goals: seq<Goal>, insights: map<string, Fields>)
      ensures this.transactions == transactions && this.goals == goals && this.insights == insights
    {
      this.transactions := transactions;
      this.goals := goals;
      this.insights := insights;
    }

    /** addDoc on `transactions`: appends the record unless the write fails. */
    method AddTransaction(record: Transaction, fails: bool) returns (ok: bool)
      modifies this
      ensures ok == !fails
      ensures transactions == old(transactions) + (if ok then [record] else [])
      ensures goals == old(goals) && insights == old(insights)
    {
      ok := !fails;
      if ok {
        transactions := transactions + [record];
      }
    }

    /** addDoc on `goals`: appends the record unless the write fails. */
    method AddGoal(record: Goal, fails: bool) returns (ok: bool)
      modifies this
      ensures ok == !fails
      ensures goals == old(goals) + (if ok then [record] else [])
      ensures transactions == old(transactions) && insights == old(insights)
    {
      ok := !fails;
      if ok {
        goals := goals + [record];
      }
    }

    /** setDoc with merge on `insights/<key>`, unless the write fails. */
    method MergeInsights(key: string, fields: Fields, fails: bool) returns (ok: bool)
      modifies this
      ensures ok == !fails
      ensures insights == if ok then old(insights)[key := MergeFields(if key in old(insights) then old(insights)[key] else map[], fields)]
                         else old(insights)
      ensures transactions == old(transactions) && goals == old(goals)
    {
      ok := !fails;
      if ok {
        var existing := if key in insights then insights[key] else map[];
        insights := insights[key := MergeFields(existing, fields)];
      }
    }
  }
}
