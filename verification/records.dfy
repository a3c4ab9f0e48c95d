/** The records the store keeps: submissions, judges, and the partial records
    (`updates`) that `updateSubmission` spreads over a submission. */
module Records {
  import opened Optional
  import opened Seqs

  /** The three statuses the screens know. The field itself is a free string:
      the collection may come back from storage with anything in it. */
  const PENDING: string := "pending"
  const ASSIGNED: string := "assigned"
  const JUDGED: string := "judged"

  predicate KnownStatus(status: string) {
    status == PENDING || status == ASSIGNED || status == JUDGED
  }

  datatype Judge = Judge(id: string, name: string)

  /** A submission. `submittedAt` is a `Date`, kept as milliseconds since the
      epoch; the three keys a record may lack are `Option`s. */
  datatype Submission = Submission(
    id: string,
    title: string,
    artistName: string,
    audioUrl: string,
    contestantId: string,
    contestantName: string,
    submittedAt: int,
    status: string,
    assignedJudgeId: Option<string>,
    rating: Option<real>,
    feedback: Option<string>)

  /** A partial submission: `Some` for every key the object literal carries. */
  datatype Patch = Patch(
    id: Option<string>,
    title: Option<string>,
    artistName: Option<string>,
    audioUrl: Option<string>,
    contestantId: Option<string>,
    contestantName: Option<string>,
    submittedAt: Option<int>,
    status: Option<string>,
    assignedJudgeId: Option<string>,
    rating: Option<real>,
    feedback: Option<string>)

  /** `{}`: the patch with no keys. */
  const NoChanges: Patch :=
    Patch(None, None, None, None, None, None, None, None, None, None, None)

  function Pick<T>(update: Option<T>, current: T): T {
    if update.Some? then update.value else current
  }

  function PickOptional<T>(update: Option<T>, current: Option<T>): Option<T> {
    if update.Some? then update else current
  }

  /** `{ ...s, ...p }`: every key `p` carries replaces the one of `s`. */
  function Merge(s: Submission, p: Patch): (r: Submission)
    ensures p.id.None? ==> r.id == s.id
    ensures p.status.Some? ==> r.status == p.status.value
    ensures p.assignedJudgeId.Some? ==> r.assignedJudgeId == p.assignedJudgeId
    ensures p == NoChanges ==> r == s
  {
    Submission(
      Pick(p.id, s.id),
      Pick(p.title, s.title),
      Pick(p.artistName, s.artistName),
      Pick(p.audioUrl, s.audioUrl),
      Pick(p.contestantId, s.contestantId),
      Pick(p.contestantName, s.contestantName),
      Pick(p.submittedAt, s.submittedAt),
      Pick(p.status, s.status),
      PickOptional(p.assignedJudgeId, s.assignedJudgeId),
      PickOptional(p.rating, s.rating),
      PickOptional(p.feedback, s.feedback))
  }

  /** `{ ...p, ...q }`: the keys of `q` win over those of `p`. */
  function Then(p: Patch, q: Patch): Patch {
    Patch(
      PickOptional(q.id, p.id),
      PickOptional(q.title, p.title),
      PickOptional(q.artistName, p.artistName),
      PickOptional(q.audioUrl, p.audioUrl),
      PickOptional(q.contestantId, p.contestantId),
      PickOptional(q.contestantName, p.contestantName),
      PickOptional(q.submittedAt, p.submittedAt),
      PickOptional(q.status, p.status),
      PickOptional(q.assignedJudgeId, p.assignedJudgeId),
      PickOptional(q.rating, p.rating),
      PickOptional(q.feedback, p.feedback))
  }

  /** Field by field: a key the patch carries takes its value; every other
      key keeps the old one. */
  lemma MergeFields(s: Submission, p: Patch)
    ensures Merge(s, p).id == (if p.id.Some? then p.id.value else s.id)
    ensures Merge(s, p).title == (if p.title.Some? then p.title.value else s.title)
    ensures Merge(s, p).artistName == (if p.artistName.Some? then p.artistName.value else s.artistName)
    ensures Merge(s, p).audioUrl == (if p.audioUrl.Some? then p.audioUrl.value else s.audioUrl)
    ensures Merge(s, p).contestantId == (if p.contestantId.Some? then p.contestantId.value else s.contestantId)
    ensures Merge(s, p).contestantName == (if p.contestantName.Some? then p.contestantName.value else s.contestantName)
    ensures Merge(s, p).submittedAt == (if p.submittedAt.Some? then p.submittedAt.value else s.submittedAt)
    ensures Merge(s, p).status == (if p.status.Some? then p.status.value else s.status)
    ensures Merge(s, p).assignedJudgeId == (if p.assignedJudgeId.Some? then p.assignedJudgeId else s.assignedJudgeId)
    ensures Merge(s, p).rating == (if p.rating.Some? then p.rating else s.rating)
    ensures Merge(s, p).feedback == (if p.feedback.Some? then p.feedback else s.feedback)
  {
  }

  /** Spreading `{}` changes nothing. */
  lemma MergeNoChanges(s: Submission)
    ensures Merge(s, NoChanges) == s
  {
  }

  /** Spreading the same patch twice is spreading it once. */
  lemma MergeIdempotent(s: Submission, p: Patch)
    ensures Merge(Merge(s, p), p) == Merge(s, p)
  {
  }

  /** Two spreads in a row are one spread of the combined patch. */
  lemma MergeThen(s: Submission, p: Patch, q: Patch)
    ensures Merge(Merge(s, p), q) == Merge(s, Then(p, q))
  {
  }

  /** True for the values JavaScript treats as true: here, a rating that is
      present and not zero. */
  predicate RatingTruthy(rating: Option<real>) {
    rating.Some? && rating.value != 0.0
  }

  /** No two submissions share an id. */
  predicate DistinctIds(xs: seq<Submission>) {
    forall i, j :: 0 <= i < j < |xs| ==> xs[i].id != xs[j].id
  }

  /** No two judges share an id. */
  predicate DistinctJudgeIds(judges: seq<Judge>) {
    forall i, j :: 0 <= i < j < |judges| ==> judges[i].id != judges[j].id
  }

  predicate IsJudgeId(judges: seq<Judge>, id: string) {
    exists j :: j in judges && j.id == id
  }

  /** Every assigned judge id names a judge of the roster. */
  predicate JudgeRefsResolve(xs: seq<Submission>, judges: seq<Judge>) {
    forall k :: 0 <= k < |xs| && xs[k].assignedJudgeId.Some? ==>
      IsJudgeId(judges, xs[k].assignedJudgeId.value)
  }

  predicate StatusesKnown(xs: seq<Submission>) {
    forall k :: 0 <= k < |xs| ==> KnownStatus(xs[k].status)
  }

  /** The shape each status has in the seed data: a pending record has no
      judge, rating or feedback; an assigned one a judge and no rating; a
      judged one a judge, a rating between 0 and 10, and feedback. */
  predicate StatusShape(s: Submission) {
    && (s.status == PENDING ==>
          s.assignedJudgeId.None? && s.rating.None? && s.feedback.None?)
    && (s.status == ASSIGNED ==> s.assignedJudgeId.Some? && s.rating.None?)
    && (s.status == JUDGED ==>
          s.assignedJudgeId.Some? && s.feedback.Some? &&
          s.rating.Some? && 0.0 <= s.rating.value <= 10.0)
  }

  /** `submissions.find(s => s.id === submissionId)`, the lookup of the assign
      and rate screens: the first record with that id, or `None`. */
  function FindSubmission(xs: seq<Submission>, submissionId: string): (r: Option<Submission>)
    ensures r.None? <==> forall k :: 0 <= k < |xs| ==> xs[k].id != submissionId
    ensures r.Some? ==> r.value.id == submissionId
    ensures r.Some? ==>
              exists k :: 0 <= k < |xs| && xs[k] == r.value && forall j :: 0 <= j < k ==> xs[j].id != submissionId
  {
    var found := Find(xs, (s: Submission) => s.id == submissionId);
    assert found.None? ==> forall k :: 0 <= k < |xs| ==> xs[k] in xs;
    found
  }
}
