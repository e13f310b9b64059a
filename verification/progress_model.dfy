/**
 * The stand-alone Progress record (backend/src/models/Progress.js): one
 * record per (user, content) pair, with the hyphenated status spelling of
 * this collection, percentage bounds and zero defaults.
 *
 * The collection is a map keyed by the (user, content) pair, which is what
 * the unique compound index guarantees.
 */
module ProgressModel {
  import opened Common

  // Status values of this collection (hyphen spelling, unlike the User ledger).
  const NotStarted: string := "not-started"
  const InProgress: string := "in-progress"
  const Completed: string := "completed"

  predicate ValidStatus(s: string) {
    s == NotStarted || s == InProgress || s == Completed
  }

  datatype ProgressRecord = ProgressRecord(
    user: string,
    content: string,
    status: string,
    completionPercentage: int,
    timeSpent: int,
    score: int,
    xpEarned: int,
    lastAccessed: Time,
    completedAt: Option<Time>)

  /** `new Progress({user, content})`: the schema defaults. */
  function NewRecord(user: string, content: string, now: Time): (r: ProgressRecord)
    ensures r.user == user && r.content == content
    ensures r.status == NotStarted && r.completionPercentage == 0
    ensures r.timeSpent == 0 && r.score == 0 && r.xpEarned == 0
    ensures r.completedAt.None? && r.lastAccessed == now
  {
    ProgressRecord(user, content, NotStarted, 0, 0, 0, 0, now, None)
  }

  /** What validation demands on save: both references, a known status, a percentage in 0..100. */
  predicate ValidRecord(r: ProgressRecord) {
    r.user != "" && r.content != "" && ValidStatus(r.status) && 0 <= r.completionPercentage <= 100
  }

  type Key = (string, string)

  /** The collection: each record is filed under its own (user, content) pair. */
  predicate ValidCollection(records: map<Key, ProgressRecord>) {
    forall k :: k in records ==> records[k].user == k.0 && records[k].content == k.1 && ValidRecord(records[k])
  }

  /** A default record is valid exactly when both references are present. */
  lemma NewRecordValid(user: string, content: string, now: Time)
    ensures ValidRecord(NewRecord(user, content, now)) <==> user != "" && content != ""
  {
  }

  /** Filing a valid record under its own key keeps the collection valid and one record per pair. */
  lemma PutKeepsCollectionValid(records: map<Key, ProgressRecord>, r: ProgressRecord)
    requires ValidCollection(records) && ValidRecord(r)
    ensures ValidCollection(records[(r.user, r.content) := r])
    ensures |records[(r.user, r.content) := r].Keys| == |records.Keys| + (if (r.user, r.content) in records then 0 else 1)
  {
  }
}
