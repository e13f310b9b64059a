/**
 * The content controller (backend/src/controllers/contentController.js):
 * the query `getContent` builds and the pairing of content with progress,
 * `getContentById`, and `updateProgress`, the second progress ledger, whose
 * merge adds time spent, overwrites only the fields supplied, and awards the
 * content's XP reward once, on the first completion.
 */
module ContentController {
  import opened Common
  import opened ContentModel
  import opened ProgressModel

  // ---------------------------------------------------------------------
  // The query filter of getContent

  /** One alternative of a `$or` list. */
  datatype Clause = GradeIs(grade: Option<string>) | StreamIs(stream: string)

  /**
   * A query: the publish flag, a list of groups each of which must have one
   * alternative satisfied, and an optional category.
   */
  datatype Query = Query(isPublished: bool, groups: seq<seq<Clause>>, category: Option<string>)

  predicate ClauseHolds(cl: Clause, c: Content) {
    match cl
    case GradeIs(g) => g.Some? && GradeName(c.grade) == g.value
    case StreamIs(s) => StreamName(c.stream) == s
  }

  predicate AnyHolds(alternatives: seq<Clause>, c: Content) {
    exists i :: 0 <= i < |alternatives| && ClauseHolds(alternatives[i], c)
  }

  predicate Selects(f: Query, c: Content) {
    && c.isPublished == f.isPublished
    && (forall j :: 0 <= j < |f.groups| ==> AnyHolds(f.groups[j], c))
    && (f.category.None? || CategoryName(c.category) == f.category.value)
  }

  /** A stream other than `all` that the caller asked for. */
  predicate StreamRequested(stream: Option<string>) {
    Truthy(stream) && stream.value != "all"
  }

  /**
   * The filter as the controller builds it: a single `$or` list holding the
   * two grade alternatives, to which the two stream alternatives are
   * appended when a stream is requested.
   */
  function BuildFilterAsWritten(grade: Option<string>, stream: Option<string>, category: Option<string>): (f: Query)
    ensures f.isPublished && |f.groups| == 1
    ensures |f.groups[0]| == if StreamRequested(stream) then 4 else 2
    ensures f.groups[0][..2] == [GradeIs(grade), GradeIs(Some("all"))]
    ensures f.category == (if Truthy(category) then category else None)
  {
    var alternatives := [GradeIs(grade), GradeIs(Some("all"))] +
      (if StreamRequested(stream) then [StreamIs(stream.value), StreamIs("all")] else []);
    Query(true, [alternatives], if Truthy(category) then category else None)
  }

  /** What the grade, stream and category parameters are meant to select. */
  predicate Intended(grade: Option<string>, stream: Option<string>, category: Option<string>, c: Content) {
    && c.isPublished
    && (c.grade == AllGrades || (grade.Some? && GradeName(c.grade) == grade.value))
    && (!StreamRequested(stream) || c.stream == AllStreams || StreamName(c.stream) == stream.value)
    && (!Truthy(category) || CategoryName(c.category) == category.value)
  }

  /**
   * What the filter as written accepts: a published item whose grade OR
   * stream fits (the stream only when one is requested), in the category.
   */
  predicate GradeOrStream(grade: Option<string>, stream: Option<string>, category: Option<string>, c: Content) {
    && c.isPublished
    && ((c.grade == AllGrades || (grade.Some? && GradeName(c.grade) == grade.value)) ||
        (StreamRequested(stream) && (c.stream == AllStreams || StreamName(c.stream) == stream.value)))
    && (!Truthy(category) || CategoryName(c.category) == category.value)
  }

  /**
   * With the stream alternatives in the grade's `$or`, the filter accepts a
   * published item when its grade OR its stream fits: the grade is no longer
   * required once a stream is requested.
   */
  lemma AsWrittenSelectsGradeOrStream(grade: Option<string>, stream: Option<string>, category: Option<string>, c: Content)
    ensures Selects(BuildFilterAsWritten(grade, stream, category), c) <==> GradeOrStream(grade, stream, category, c)
  {
    var f := BuildFilterAsWritten(grade, stream, category);
    var alts := f.groups[0];
    if c.grade == AllGrades {
      assert ClauseHolds(alts[1], c);
    }
    if grade.Some? && GradeName(c.grade) == grade.value {
      assert ClauseHolds(alts[0], c);
    }
    if StreamRequested(stream) {
      if StreamName(c.stream) == stream.value {
        assert ClauseHolds(alts[2], c);
      }
      if c.stream == AllStreams {
        assert ClauseHolds(alts[3], c);
      }
    }
  }

  /**
   * The discrepancy on a concrete query: grade `10th`, stream `science`
   * selects a published 12th-grade item open to all streams.
   */
  lemma AsWrittenIgnoresGrade(c: Content)
    requires c.isPublished && c.grade == Twelfth && c.stream == AllStreams
    ensures Selects(BuildFilterAsWritten(Some("10th"), Some("science"), None), c)
    ensures !Intended(Some("10th"), Some("science"), None, c)
  {
    AsWrittenSelectsGradeOrStream(Some("10th"), Some("science"), None, c);
  }

  /** The corrected filter: the grade alternatives and the stream alternatives are separate groups. */
  function BuildFilter(grade: Option<string>, stream: Option<string>, category: Option<string>): (f: Query)
    ensures f.isPublished
    ensures |f.groups| == if StreamRequested(stream) then 2 else 1
    ensures f.groups[0] == [GradeIs(grade), GradeIs(Some("all"))]
    ensures f.category == (if Truthy(category) then category else None)
  {
    var grades := [GradeIs(grade), GradeIs(Some("all"))];
    var groups := if StreamRequested(stream) then [grades, [StreamIs(stream.value), StreamIs("all")]] else [grades];
    Query(true, groups, if Truthy(category) then category else None)
  }

  /** The corrected filter selects exactly the intended items. */
  lemma BuildFilterSelectsIntended(grade: Option<string>, stream: Option<string>, category: Option<string>, c: Content)
    ensures Selects(BuildFilter(grade, stream, category), c) <==> Intended(grade, stream, category, c)
  {
    var f := BuildFilter(grade, stream, category);
    if Intended(grade, stream, category, c) {
      if c.grade == AllGrades {
        assert ClauseHolds(f.groups[0][1], c);
      } else {
        assert ClauseHolds(f.groups[0][0], c);
      }
      if StreamRequested(stream) {
        if c.stream == AllStreams {
          assert ClauseHolds(f.groups[1][1], c);
        } else {
          assert ClauseHolds(f.groups[1][0], c);
        }
      }
    }
    if Selects(f, c) {
      assert AnyHolds(f.groups[0], c);
      if StreamRequested(stream) {
        assert AnyHolds(f.groups[1], c);
      }
    }
  }

  // ---------------------------------------------------------------------
  // getContent and getContentById

  /** The catalogue items a query matches, in catalogue order. */
  function Matches(catalog: seq<Content>, f: Query): (r: seq<Content>)
    ensures forall i :: 0 <= i < |r| ==> Selects(f, r[i])
    ensures forall i :: 0 <= i < |catalog| && Selects(f, catalog[i]) ==>
      multiset(r)[catalog[i]] == multiset(catalog)[catalog[i]]
    ensures multiset(r) <= multiset(catalog)
  {
    Filter(catalog, c => Selects(f, c))
  }

  function CreatedAt(c: Content): int {
    c.createdAt
  }

  /** The progress record (if any) of one item, found by content id. */
  function FindRecord(records: seq<ProgressRecord>, contentId: string): (r: Option<ProgressRecord>)
    ensures r.Some? ==> r.value in records && r.value.content == contentId
    ensures r.None? <==> forall i :: 0 <= i < |records| ==> records[i].content != contentId
  {
    if records == [] then None
    else if records[0].content == contentId then Some(records[0])
    else FindRecord(records[1..], contentId)
  }

  datatype Paired = Paired(item: Content, progress: Option<ProgressRecord>)

  /** Each item next to its progress record, or null; one output per item, in order. */
  function PairWithProgress(items: seq<Content>, records: seq<ProgressRecord>): (r: seq<Paired>)
    ensures |r| == |items|
    ensures forall i :: 0 <= i < |r| ==> r[i].item == items[i]
    ensures forall i :: 0 <= i < |r| ==> r[i].progress.Some? ==>
      r[i].progress.value in records && r[i].progress.value.content == items[i].id
    ensures forall i :: 0 <= i < |r| ==> (r[i].progress.None? <==>
      forall j :: 0 <= j < |records| ==> records[j].content != items[i].id)
  {
    if items == [] then []
    else [Paired(items[0], FindRecord(records, items[0].id))] + PairWithProgress(items[1..], records)
  }

  /** `limit` as the query applies it: 0 means no limit. */
  function Limit<T>(s: seq<T>, limit: nat): (r: seq<T>)
    ensures |r| == if limit == 0 || |s| <= limit then |s| else limit
    ensures r == s[..|r|]
  {
    if limit == 0 || |s| <= limit then s else s[..limit]
  }

  function ItemsOf(r: seq<Paired>): (items: seq<Content>)
    ensures |items| == |r| && forall i :: 0 <= i < |r| ==> items[i] == r[i].item
  {
    seq(|r|, i requires 0 <= i < |r| => r[i].item)
  }

  /**
   * `r` is a newest-first page of the matches `sel`: as many items as the
   * limit allows (all of them for a limit of 0), drawn from `sel`, none of
   * the matches left out newer than the last item listed, and each item
   * next to the caller's record for it, or none when there is no record.
   */
  predicate IsPage(r: seq<Paired>, sel: seq<Content>, records: seq<ProgressRecord>, limit: nat) {
    && |r| == (if limit == 0 || |sel| <= limit then |sel| else limit)
    && multiset(ItemsOf(r)) <= multiset(sel)
    && (forall i, j :: 0 <= i < j < |r| ==> r[i].item.createdAt >= r[j].item.createdAt)
    && (forall x :: x in multiset(sel) - multiset(ItemsOf(r)) ==> r != [] && x.createdAt <= r[|r| - 1].item.createdAt)
    && (forall i :: 0 <= i < |r| ==> r[i].progress.Some? ==>
          r[i].progress.value in records && r[i].progress.value.content == r[i].item.id)
    && (forall i :: 0 <= i < |r| ==> (r[i].progress.None? <==>
          forall j :: 0 <= j < |records| ==> records[j].content != r[i].item.id))
  }

  /** The matches sorted newest first (the query sorts before it limits), cut to the limit, paired with progress. */
  function PageOf(sel: seq<Content>, records: seq<ProgressRecord>, limit: nat): (r: seq<Paired>)
    ensures IsPage(r, sel, records, limit)
  {
    var sorted := SortDesc(sel, CreatedAt);
    SortedPage(sel, sorted, records, limit);
    PairWithProgress(Limit(sorted, limit), records)
  }

  /** Any newest-first arrangement of the matches, cut and paired, is a page of them. */
  lemma SortedPage(sel: seq<Content>, sorted: seq<Content>, records: seq<ProgressRecord>, limit: nat)
    requires SortedDesc(sorted, CreatedAt) && multiset(sorted) == multiset(sel)
    ensures IsPage(PairWithProgress(Limit(sorted, limit), records), sel, records, limit)
  {
    var page := Limit(sorted, limit);
    PageFromSelection(sel, sorted, limit);
    PairedPage(page, sel, records, limit, PairWithProgress(page, records));
  }

  /**
   * A page of the sorted selection holds items of the selection, newest
   * first, and what it leaves out is no newer than its last item.
   */
  lemma PageFromSelection(selected: seq<Content>, sorted: seq<Content>, limit: nat)
    requires SortedDesc(sorted, CreatedAt) && multiset(sorted) == multiset(selected)
    ensures var page := Limit(sorted, limit);
      && multiset(page) <= multiset(selected)
      && (forall i, j :: 0 <= i < j < |page| ==> page[i].createdAt >= page[j].createdAt)
      && (forall x :: x in multiset(selected) - multiset(page) ==> page != [] && x.createdAt <= page[|page| - 1].createdAt)
  {
    var page := Limit(sorted, limit);
    assert |sorted| == |selected| by {
      assert |multiset(sorted)| == |multiset(selected)|;
    }
    SortedPrefix(sorted, |page|);
  }

  /** Pairing a page of the selection with progress records makes it a page in the sense of `IsPage`. */
  lemma PairedPage(page: seq<Content>, sel: seq<Content>, records: seq<ProgressRecord>, limit: nat, r: seq<Paired>)
    requires |page| == (if limit == 0 || |sel| <= limit then |sel| else limit)
    requires multiset(page) <= multiset(sel)
    requires forall i, j :: 0 <= i < j < |page| ==> page[i].createdAt >= page[j].createdAt
    requires forall x :: x in multiset(sel) - multiset(page) ==> page != [] && x.createdAt <= page[|page| - 1].createdAt
    requires |r| == |page| && forall i :: 0 <= i < |r| ==> r[i].item == page[i]
    requires forall i :: 0 <= i < |r| ==> r[i].progress.Some? ==>
      r[i].progress.value in records && r[i].progress.value.content == page[i].id
    requires forall i :: 0 <= i < |r| ==> (r[i].progress.None? <==>
      forall j :: 0 <= j < |records| ==> records[j].content != page[i].id)
    ensures IsPage(r, sel, records, limit)
  {
    assert ItemsOf(r) == page;
  }

  /** The first `n` items of a newest-first list are newest first, and the rest no newer than the last of them. */
  lemma SortedPrefix(sorted: seq<Content>, n: nat)
    requires SortedDesc(sorted, CreatedAt) && n <= |sorted| && (n == |sorted| || n > 0)
    ensures multiset(sorted[..n]) <= multiset(sorted)
    ensures forall i, j :: 0 <= i < j < n ==> sorted[..n][i].createdAt >= sorted[..n][j].createdAt
    ensures forall x :: x in multiset(sorted) - multiset(sorted[..n]) ==> n > 0 && x.createdAt <= sorted[n - 1].createdAt
  {
    assert sorted == sorted[..n] + sorted[n..];
    assert multiset(sorted) - multiset(sorted[..n]) == multiset(sorted[n..]);
    PrefixOrdered(sorted, n);
    RestNoNewer(sorted, n);
  }

  lemma PrefixOrdered(sorted: seq<Content>, n: nat)
    requires SortedDesc(sorted, CreatedAt) && n <= |sorted|
    ensures forall i, j :: 0 <= i < j < n ==> sorted[..n][i].createdAt >= sorted[..n][j].createdAt
  {
    forall i, j | 0 <= i < j < n ensures sorted[..n][i].createdAt >= sorted[..n][j].createdAt {
      assert CreatedAt(sorted[i]) >= CreatedAt(sorted[j]);
    }
  }

  lemma RestNoNewer(sorted: seq<Content>, n: nat)
    requires SortedDesc(sorted, CreatedAt) && n <= |sorted| && (n == |sorted| || n > 0)
    ensures forall x :: x in multiset(sorted[n..]) ==> n > 0 && x.createdAt <= sorted[n - 1].createdAt
  {
    forall x | x in multiset(sorted[n..]) ensures n > 0 && x.createdAt <= sorted[n - 1].createdAt {
      var k :| n <= k < |sorted| && sorted[k] == x;
      assert CreatedAt(sorted[n - 1]) >= CreatedAt(sorted[k]);
    }
  }

  /** The page size when the query gives no `limit`. */
  const DefaultLimit: nat := 20

  /**
   * `getContent` as written: a newest-first page of the catalogue items the
   * built filter matches, which are the published items of the category
   * whose grade or stream fits; a missing `limit` means 20.
   */
  function GetContent(catalog: seq<Content>, userRecords: seq<ProgressRecord>,
                      grade: Option<string>, stream: Option<string>, category: Option<string>, limit: Option<nat>)
    : (r: seq<Paired>)
    ensures IsPage(r, Matches(catalog, BuildFilterAsWritten(grade, stream, category)), userRecords, limit.GetOr(DefaultLimit))
    ensures limit.None? ==> |r| <= DefaultLimit
    ensures forall i :: 0 <= i < |r| ==> r[i].item in catalog && GradeOrStream(grade, stream, category, r[i].item)
  {
    var n := limit.GetOr(DefaultLimit);
    var sel := Matches(catalog, BuildFilterAsWritten(grade, stream, category));
    var r := PageOf(sel, userRecords, n);
    ListedMatch(r, sel, catalog, userRecords, n, BuildFilterAsWritten(grade, stream, category));
    forall i | 0 <= i < |r| ensures GradeOrStream(grade, stream, category, r[i].item) {
      AsWrittenSelectsGradeOrStream(grade, stream, category, r[i].item);
    }
    r
  }

  /** The corrected listing: a newest-first page of the items the request intends. */
  function GetContentIntended(catalog: seq<Content>, userRecords: seq<ProgressRecord>,
                              grade: Option<string>, stream: Option<string>, category: Option<string>, limit: Option<nat>)
    : (r: seq<Paired>)
    ensures IsPage(r, Matches(catalog, BuildFilter(grade, stream, category)), userRecords, limit.GetOr(DefaultLimit))
    ensures limit.None? ==> |r| <= DefaultLimit
    ensures forall i :: 0 <= i < |r| ==> r[i].item in catalog && Intended(grade, stream, category, r[i].item)
  {
    var n := limit.GetOr(DefaultLimit);
    var sel := Matches(catalog, BuildFilter(grade, stream, category));
    var r := PageOf(sel, userRecords, n);
    ListedMatch(r, sel, catalog, userRecords, n, BuildFilter(grade, stream, category));
    forall i | 0 <= i < |r| ensures Intended(grade, stream, category, r[i].item) {
      BuildFilterSelectsIntended(grade, stream, category, r[i].item);
    }
    r
  }

  /** Every item on a page of a query's matches is a catalogue item the query selects. */
  lemma ListedMatch(r: seq<Paired>, sel: seq<Content>, catalog: seq<Content>, records: seq<ProgressRecord>,
                    limit: nat, f: Query)
    requires sel == Matches(catalog, f) && IsPage(r, sel, records, limit)
    ensures forall i :: 0 <= i < |r| ==> r[i].item in catalog && Selects(f, r[i].item)
  {
    forall i | 0 <= i < |r| ensures r[i].item in catalog && Selects(f, r[i].item) {
      var x := r[i].item;
      assert ItemsOf(r)[i] == x;
      assert x in multiset(ItemsOf(r));
      assert x in multiset(sel);
      var k :| 0 <= k < |sel| && sel[k] == x;
      assert x in multiset(catalog);
    }
  }

  datatype ItemResponse = ContentNotFound | Item(paired: Paired)

  /** `getContentById`: 404 for an unknown id, else the item with the caller's record or null. */
  function GetContentById(catalog: map<string, Content>, records: map<Key, ProgressRecord>,
                          user: string, id: string): (r: ItemResponse)
    ensures r.ContentNotFound? <==> id !in catalog
    ensures r.Item? ==> (r.paired.item == catalog[id] &&
      (r.paired.progress.Some? <==> (user, id) in records) &&
      (r.paired.progress.Some? ==> r.paired.progress.value == records[(user, id)]))
  {
    if id !in catalog then ContentNotFound
    else Item(Paired(catalog[id], if (user, id) in records then Some(records[(user, id)]) else None))
  }

  // ---------------------------------------------------------------------
  // updateProgress

  /** The body of a progress update; `None` is an absent key. */
  datatype ProgressUpdate = ProgressUpdate(
    completionPercentage: Option<int>,
    timeSpent: Option<int>,
    status: Option<string>,
    score: Option<int>)

  /** The field updates: time is added, the other fields are replaced when supplied. */
  function Merge(r: ProgressRecord, u: ProgressUpdate, now: Time): (m: ProgressRecord)
    ensures m.timeSpent == r.timeSpent + u.timeSpent.GetOr(0)
    ensures m.completionPercentage == u.completionPercentage.GetOr(r.completionPercentage)
    ensures m.status == (if Truthy(u.status) then u.status.value else r.status)
    ensures m.score == u.score.GetOr(r.score)
    ensures m.lastAccessed == now
    ensures m.user == r.user && m.content == r.content && m.xpEarned == r.xpEarned && m.completedAt == r.completedAt
  {
    r.(completionPercentage := u.completionPercentage.GetOr(r.completionPercentage),
       timeSpent := if u.timeSpent.Some? then r.timeSpent + u.timeSpent.value else r.timeSpent,
       status := if Truthy(u.status) then u.status.value else r.status,
       score := u.score.GetOr(r.score),
       lastAccessed := now)
  }

  /** The award is due when the update says `completed` and the record has no completion time. */
  predicate AwardDue(r: ProgressRecord, u: ProgressUpdate) {
    u.status == Some(Completed) && r.completedAt.None?
  }

  /** The merged record, with the completion stamp and the XP reward when the award is due. */
  function Apply(r: ProgressRecord, u: ProgressUpdate, reward: int, now: Time): ProgressRecord {
    var m := Merge(r, u, now);
    if AwardDue(r, u) then m.(completedAt := Some(now), xpEarned := reward) else m
  }

  /** One update: the record persisted (if the save passed validation) and the XP credited to the user. */
  datatype Step = Step(saved: bool, record: ProgressRecord, xpCredited: int)

  /** The update as the controller orders it: the user's XP is incremented before the save is attempted. */
  function StepAsWritten(r: ProgressRecord, u: ProgressUpdate, reward: int, now: Time): (s: Step)
    ensures s.saved == ValidRecord(Apply(r, u, reward, now))
    ensures s.xpCredited == if AwardDue(r, u) then reward else 0
    ensures s.record == if s.saved then Apply(r, u, reward, now) else r
  {
    var a := Apply(r, u, reward, now);
    Step(ValidRecord(a), if ValidRecord(a) then a else r, if AwardDue(r, u) then reward else 0)
  }

  /** The corrected order: the reward is credited only when the completed record is saved. */
  function StepCorrected(r: ProgressRecord, u: ProgressUpdate, reward: int, now: Time): (s: Step)
    ensures s.saved == ValidRecord(Apply(r, u, reward, now))
    ensures s.xpCredited == if s.saved && AwardDue(r, u) then reward else 0
    ensures s.record == if s.saved then Apply(r, u, reward, now) else r
  {
    var a := Apply(r, u, reward, now);
    Step(ValidRecord(a), if ValidRecord(a) then a else r, if ValidRecord(a) && AwardDue(r, u) then reward else 0)
  }

  /**
   * As written, a completion whose save is rejected (a percentage above 100)
   * still credits the reward and leaves the record without a completion
   * time, so sending it twice credits the reward twice.
   */
  lemma AsWrittenDoubleAward(user: string, content: string, reward: int, t1: Time, t2: Time)
    requires user != "" && content != ""
    ensures var r := NewRecord(user, content, t1);
      var u := ProgressUpdate(Some(150), None, Some(Completed), None);
      var s1 := StepAsWritten(r, u, reward, t1);
      var s2 := StepAsWritten(s1.record, u, reward, t2);
      !s1.saved && !s2.saved && s1.xpCredited + s2.xpCredited == 2 * reward
  {
  }

  /** Replaying a series of updates on one record: the final record and the total XP credited. */
  function Replay(r: ProgressRecord, us: seq<ProgressUpdate>, reward: int, now: Time): (s: Step)
    decreases |us|
  {
    if us == [] then Step(true, r, 0)
    else
      var first := StepCorrected(r, us[0], reward, now);
      var rest := Replay(first.record, us[1..], reward, now);
      Step(rest.saved, rest.record, first.xpCredited + rest.xpCredited)
  }

  /**
   * Corrected, the reward is credited at most once over any series of
   * updates: the total is the reward exactly when the record went from
   * having no completion time to having one, and 0 otherwise.
   */
  lemma {:induction false} ReplayAwardsOnce(r: ProgressRecord, us: seq<ProgressUpdate>, reward: int, now: Time)
    ensures var s := Replay(r, us, reward, now);
      s.xpCredited == (if r.completedAt.None? && s.record.completedAt.Some? then reward else 0)
    ensures r.completedAt.Some? ==> Replay(r, us, reward, now).record.completedAt == r.completedAt
    decreases |us|
  {
    if us != [] {
      var first := StepCorrected(r, us[0], reward, now);
      ReplayAwardsOnce(first.record, us[1..], reward, now);
    }
  }

  /**
   * A completed record keeps its completion time and XP, and a second
   * completion credits nothing, in either order of credit and save.
   */
  lemma SecondCompletionAwardsNothing(r: ProgressRecord, u: ProgressUpdate, reward: int, now: Time)
    requires r.completedAt.Some?
    ensures var s := StepAsWritten(r, u, reward, now);
      s.xpCredited == 0 && s.record.completedAt == r.completedAt && s.record.xpEarned == r.xpEarned
    ensures var s := StepCorrected(r, u, reward, now);
      s.xpCredited == 0 && s.record.completedAt == r.completedAt && s.record.xpEarned == r.xpEarned
  {
  }

  /** The two orders differ only when the save is rejected: a saved update credits the same either way. */
  lemma AsWrittenAgreesWhenSaved(r: ProgressRecord, u: ProgressUpdate, reward: int, now: Time)
    ensures StepAsWritten(r, u, reward, now).saved <==> StepCorrected(r, u, reward, now).saved
    ensures StepAsWritten(r, u, reward, now).saved ==> StepAsWritten(r, u, reward, now) == StepCorrected(r, u, reward, now)
    ensures !StepAsWritten(r, u, reward, now).saved ==>
      StepAsWritten(r, u, reward, now).xpCredited - StepCorrected(r, u, reward, now).xpCredited ==
      (if AwardDue(r, u) then reward else 0)
  {
  }

  datatype UpdateResponse = NotFound | ServerError | Saved(record: ProgressRecord)

  /**
   * The Progress collection together with each user's `progress.totalXP`
   * counter, the path the completion award increments; a user without an
   * entry has no document, so an increment changes nothing.
   */
  class ProgressStore {
    var records: map<Key, ProgressRecord>
    var userXP: map<string, int>

    ghost predicate Valid()
      reads this
    {
      ValidCollection(records)
    }

    constructor ()
      ensures Valid() && records == map[] && userXP == map[]
    {
      records := map[];
      userXP := map[];
    }

    /** The record of the pair, or a fresh default one. */
    function Current(user: string, content: string, now: Time): (r: ProgressRecord)
      reads this
      requires Valid()
      ensures r.user == user && r.content == content
      ensures (user, content) in records ==> r == records[(user, content)]
      ensures (user, content) !in records ==> r == NewRecord(user, content, now)
    {
      if (user, content) in records then records[(user, content)] else NewRecord(user, content, now)
    }

    /**
     * `updateProgress` for one user and content id: 404 with nothing changed
     * when the content does not exist; otherwise the record is reused or
     * created, merged and stamped, the reward is credited when the award is
     * due, and only then is the record saved if valid (500 if not, the
     * credit standing).
     */
    method UpdateProgress(catalog: map<string, Content>, user: string, contentId: string,
                          u: ProgressUpdate, now: Time) returns (res: UpdateResponse)
      requires Valid()
      modifies this
      ensures Valid()
      ensures contentId !in catalog ==> res == NotFound && records == old(records) && userXP == old(userXP)
      ensures contentId in catalog ==>
        var s := StepAsWritten(old(Current(user, contentId, now)), u, catalog[contentId].xpReward, now);
        && records == (if s.saved then old(records)[(user, contentId) := s.record] else old(records))
        && userXP == (if user in old(userXP) then old(userXP)[user := old(userXP)[user] + s.xpCredited] else old(userXP))
        && res == (if s.saved then Saved(s.record) else ServerError)
    {
      if contentId !in catalog {
        return NotFound;
      }
      var reward := catalog[contentId].xpReward;
      var progress := Current(user, contentId, now);
      var due := AwardDue(progress, u);
      progress := Merge(progress, u, now);
      if due {
        progress := progress.(completedAt := Some(now), xpEarned := reward);
        if user in userXP {
          userXP := userXP[user := userXP[user] + reward];
        }
      }
      if !ValidRecord(progress) {
        return ServerError;
      }
      records := records[(user, contentId) := progress];
      res := Saved(progress);
    }
  }
}
