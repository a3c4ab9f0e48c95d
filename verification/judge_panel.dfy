/** The judge panel: the submissions assigned to the signed-in user, split
    into those still to review and those reviewed. */
module JudgePanel {
  import opened Optional
  import opened Records
  import opened Seqs
  import AdminDashboard

  /** `s.assignedJudgeId === currentUserId`: a record without a judge id
      never matches, not even the empty user id. */
  predicate AssignedTo(userId: string, s: Submission) {
    s.assignedJudgeId == Some(userId)
  }

  function MyAssignments(xs: seq<Submission>, userId: string): seq<Submission> {
    Filter(xs, (s: Submission) => AssignedTo(userId, s))
  }

  function PendingReviews(xs: seq<Submission>, userId: string): seq<Submission> {
    Filter(MyAssignments(xs, userId), AdminDashboard.IsAssigned)
  }

  function CompletedReviews(xs: seq<Submission>, userId: string): seq<Submission> {
    Filter(MyAssignments(xs, userId), AdminDashboard.IsJudged)
  }

  /** `myAssignments` is the order-preserving sub-list of the submissions
      whose judge id is the user's. */
  lemma MyAssignmentsAreMine(xs: seq<Submission>, userId: string)
    ensures forall s :: s in MyAssignments(xs, userId) <==> s in xs && s.assignedJudgeId == Some(userId)
    ensures IsSubsequence(MyAssignments(xs, userId), xs)
  {
    FilterIsSubsequence(xs, (s: Submission) => AssignedTo(userId, s));
  }

  /** `pendingReviews` holds exactly the user's records with status
      'assigned', `completedReviews` exactly those with status 'judged', each
      in the order of the submissions. */
  lemma ReviewListsAreExact(xs: seq<Submission>, userId: string)
    ensures PendingReviews(xs, userId) ==
              Filter(xs, (s: Submission) => AssignedTo(userId, s) && s.status == ASSIGNED)
    ensures CompletedReviews(xs, userId) ==
              Filter(xs, (s: Submission) => AssignedTo(userId, s) && s.status == JUDGED)
    ensures forall s :: s in PendingReviews(xs, userId) <==>
              s in xs && s.assignedJudgeId == Some(userId) && s.status == ASSIGNED
    ensures forall s :: s in CompletedReviews(xs, userId) <==>
              s in xs && s.assignedJudgeId == Some(userId) && s.status == JUDGED
  {
    var mine := (s: Submission) => AssignedTo(userId, s);
    FilterFilter(xs, mine, AdminDashboard.IsAssigned,
                 (s: Submission) => AssignedTo(userId, s) && s.status == ASSIGNED);
    FilterFilter(xs, mine, AdminDashboard.IsJudged,
                 (s: Submission) => AssignedTo(userId, s) && s.status == JUDGED);
  }

  /** The two review lists share no record and together are no longer than
      `myAssignments`; records of any other status are in neither. */
  lemma ReviewListsFit(xs: seq<Submission>, userId: string)
    ensures forall s :: !(s in PendingReviews(xs, userId) && s in CompletedReviews(xs, userId))
    ensures |PendingReviews(xs, userId)| + |CompletedReviews(xs, userId)| <= |MyAssignments(xs, userId)|
  {
    DisjointFiltersFit(MyAssignments(xs, userId), AdminDashboard.IsAssigned, AdminDashboard.IsJudged);
  }

  /** The footer of a card: the rating and "Reviewed", or "Tap to review". */
  datatype ReviewLabel = Reviewed(rating: real) | TapToReview

  function LabelFor(s: Submission): (l: ReviewLabel)
    ensures l.Reviewed? <==> RatingTruthy(s.rating)
    ensures l.Reviewed? ==> s.rating == Some(l.rating)
  {
    if RatingTruthy(s.rating) then Reviewed(s.rating.value) else TapToReview
  }

  /** A card; tapping it opens the rate screen for its id. `judgedStyle` is
      the colouring of a record whose status is 'judged'. */
  datatype Card = Card(opensRateFor: string, title: string, artistName: string,
                       judgedStyle: bool, footer: ReviewLabel)

  function CardFor(s: Submission): (c: Card)
    ensures c.opensRateFor == s.id && c.footer == LabelFor(s)
    ensures c.judgedStyle <==> s.status == JUDGED
  {
    Card(s.id, s.title, s.artistName, s.status == JUDGED, LabelFor(s))
  }

  datatype Panel = Panel(
    assignmentCount: nat,
    toReviewCount: nat,
    completedCount: nat,
    cards: seq<Card>,
    showsEmptyState: bool)

  function Cards(xs: seq<Submission>): (cs: seq<Card>)
    ensures |cs| == |xs| && forall k :: 0 <= k < |xs| ==> cs[k] == CardFor(xs[k])
  {
    seq(|xs|, k requires 0 <= k < |xs| => CardFor(xs[k]))
  }

  /** The panel: the three header counts, a card per assignment, and the
      empty state when there is none. */
  function Render(xs: seq<Submission>, userId: string): (r: Panel)
    ensures |r.cards| == |MyAssignments(xs, userId)| == r.assignmentCount
    ensures r.showsEmptyState <==> r.cards == []
    ensures r.toReviewCount == |PendingReviews(xs, userId)| && r.completedCount == |CompletedReviews(xs, userId)|
    ensures r.toReviewCount + r.completedCount <= r.assignmentCount
    ensures r.cards == Cards(MyAssignments(xs, userId))
    ensures forall k :: 0 <= k < |r.cards| ==>
              r.cards[k].opensRateFor == MyAssignments(xs, userId)[k].id
  {
    var mine := MyAssignments(xs, userId);
    DisjointFiltersFit(mine, AdminDashboard.IsAssigned, AdminDashboard.IsJudged);
    Panel(|mine|, |PendingReviews(xs, userId)|, |CompletedReviews(xs, userId)|, Cards(mine), |mine| == 0)
  }

  /** The empty state shows exactly when no submission is assigned to the
      user; otherwise there is one card per assignment, in order. */
  lemma EmptyStateIffNoAssignments(xs: seq<Submission>, userId: string)
    ensures Render(xs, userId).showsEmptyState <==>
              forall s :: s in xs ==> s.assignedJudgeId != Some(userId)
    ensures Render(xs, userId).showsEmptyState ==> Render(xs, userId).cards == []
    ensures |Render(xs, userId).cards| == |MyAssignments(xs, userId)|
    ensures forall k :: 0 <= k < |Render(xs, userId).cards| ==>
              Render(xs, userId).cards[k] == CardFor(MyAssignments(xs, userId)[k])
  {
    FilterEmptyIff(xs, (s: Submission) => AssignedTo(userId, s));
  }
}
