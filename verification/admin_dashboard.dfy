/** The admin dashboard: the submissions split three ways by status, a card
    per submission with its judge looked up in the roster, a section per
    non-empty list, and an empty state when there are no submissions. */
module AdminDashboard {
  import opened Optional
  import opened Records
  import opened Seqs

  predicate IsPending(s: Submission) { s.status == PENDING }
  predicate IsAssigned(s: Submission) { s.status == ASSIGNED }
  predicate IsJudged(s: Submission) { s.status == JUDGED }

  function PendingSubmissions(xs: seq<Submission>): seq<Submission> { Filter(xs, IsPending) }
  function AssignedSubmissions(xs: seq<Submission>): seq<Submission> { Filter(xs, IsAssigned) }
  function JudgedSubmissions(xs: seq<Submission>): seq<Submission> { Filter(xs, IsJudged) }

  /** Each list is the order-preserving sub-list of the submissions with its
      status: the same records, as often as they occur, in the same order. */
  lemma {:induction false} ListsAreStatusFilters(xs: seq<Submission>)
    ensures forall s :: s in PendingSubmissions(xs) <==> s in xs && s.status == PENDING
    ensures forall s :: s in AssignedSubmissions(xs) <==> s in xs && s.status == ASSIGNED
    ensures forall s :: s in JudgedSubmissions(xs) <==> s in xs && s.status == JUDGED
    ensures forall s :: multiset(PendingSubmissions(xs))[s] == if s.status == PENDING then multiset(xs)[s] else 0
    ensures forall s :: multiset(AssignedSubmissions(xs))[s] == if s.status == ASSIGNED then multiset(xs)[s] else 0
    ensures forall s :: multiset(JudgedSubmissions(xs))[s] == if s.status == JUDGED then multiset(xs)[s] else 0
    ensures IsSubsequence(PendingSubmissions(xs), xs)
    ensures IsSubsequence(AssignedSubmissions(xs), xs)
    ensures IsSubsequence(JudgedSubmissions(xs), xs)
  {
    FilterIsSubsequence(xs, IsPending);
    FilterIsSubsequence(xs, IsAssigned);
    FilterIsSubsequence(xs, IsJudged);
  }

  /** No submission is in two of the lists. */
  lemma ListsDisjoint(xs: seq<Submission>)
    ensures forall s :: !(s in PendingSubmissions(xs) && s in AssignedSubmissions(xs))
    ensures forall s :: !(s in PendingSubmissions(xs) && s in JudgedSubmissions(xs))
    ensures forall s :: !(s in AssignedSubmissions(xs) && s in JudgedSubmissions(xs))
  {
  }

  /** When every status is one of the three, the three counts add up to the
      total in the header. */
  lemma CountsAddUp(xs: seq<Submission>)
    requires StatusesKnown(xs)
    ensures |PendingSubmissions(xs)| + |AssignedSubmissions(xs)| + |JudgedSubmissions(xs)| == |xs|
  {
    ThreeWaySplit(xs, IsPending, IsAssigned, IsJudged);
  }

  /** A new submission joins the end of the list of its status, and no other. */
  lemma AddedJoinsItsList(xs: seq<Submission>, s: Submission)
    ensures PendingSubmissions(xs + [s]) == PendingSubmissions(xs) + (if IsPending(s) then [s] else [])
    ensures AssignedSubmissions(xs + [s]) == AssignedSubmissions(xs) + (if IsAssigned(s) then [s] else [])
    ensures JudgedSubmissions(xs + [s]) == JudgedSubmissions(xs) + (if IsJudged(s) then [s] else [])
  {
    FilterAppendOne(xs, s, IsPending);
    FilterAppendOne(xs, s, IsAssigned);
    FilterAppendOne(xs, s, IsJudged);
  }

  /** `judges.find(j => j.id === s.assignedJudgeId)`: an absent judge id
      matches no judge. */
  function AssignedJudge(judges: seq<Judge>, s: Submission): (r: Option<Judge>)
    ensures r.None? <==> forall j :: j in judges ==> s.assignedJudgeId != Some(j.id)
    ensures r.Some? ==> r.value in judges && s.assignedJudgeId == Some(r.value.id)
    ensures r.Some? ==> exists k :: 0 <= k < |judges| && judges[k] == r.value &&
                          forall i :: 0 <= i < k ==> Some(judges[i].id) != s.assignedJudgeId
  {
    Find(judges, (j: Judge) => s.assignedJudgeId == Some(j.id))
  }

  /** With distinct roster ids, the judge found is the one with that id. */
  lemma AssignedJudgeIsTheOne(judges: seq<Judge>, s: Submission, k: nat)
    requires DistinctJudgeIds(judges)
    requires k < |judges| && s.assignedJudgeId == Some(judges[k].id)
    ensures AssignedJudge(judges, s) == Some(judges[k])
  {
    var r := AssignedJudge(judges, s);
    var i :| 0 <= i < |judges| && judges[i] == r.value &&
             forall m :: 0 <= m < i ==> Some(judges[m].id) != s.assignedJudgeId;
    assert i == k;
  }

  /** The card footer: the judge's name, or "Tap to assign" when the judge
      id is missing or names no roster judge. */
  datatype JudgeBadge = AssignedTo(name: string) | TapToAssign

  /** A submission card. Tapping it opens the assign screen for its id,
      whatever its status. The rating shows when it is truthy. */
  datatype Card = Card(opensAssignFor: string, title: string, artistName: string,
                       badge: JudgeBadge, showsRating: bool)

  function CardFor(judges: seq<Judge>, s: Submission): (c: Card)
    ensures c.opensAssignFor == s.id
    ensures c.badge == TapToAssign <==> forall j :: j in judges ==> s.assignedJudgeId != Some(j.id)
    ensures c.badge.AssignedTo? ==>
              exists j :: j in judges && s.assignedJudgeId == Some(j.id) && c.badge.name == j.name
    ensures c.showsRating <==> RatingTruthy(s.rating)
  {
    var badge := match AssignedJudge(judges, s)
      case Some(j) => AssignedTo(j.name)
      case None => TapToAssign;
    Card(s.id, s.title, s.artistName, badge, RatingTruthy(s.rating))
  }

  function Cards(judges: seq<Judge>, xs: seq<Submission>): (cs: seq<Card>)
    ensures |cs| == |xs| && forall k :: 0 <= k < |xs| ==> cs[k] == CardFor(judges, xs[k])
  {
    seq(|xs|, k requires 0 <= k < |xs| => CardFor(judges, xs[k]))
  }

  datatype Section = Section(title: string, count: nat, cards: seq<Card>)

  /** `renderSection`: nothing for an empty list. */
  function RenderSection(judges: seq<Judge>, title: string, data: seq<Submission>): (r: Option<Section>)
    ensures r.None? <==> |data| == 0
    ensures r.Some? ==> r.value.title == title && r.value.count == |data| && r.value.cards == Cards(judges, data)
  {
    if |data| == 0 then None else Some(Section(title, |data|, Cards(judges, data)))
  }

  function Present(o: Option<Section>): seq<Section> {
    if o.Some? then [o.value] else []
  }

  /** The whole dashboard. */
  datatype Dashboard = Dashboard(
    total: nat,
    pendingCount: nat,
    assignedCount: nat,
    judgedCount: nat,
    sections: seq<Section>,
    showsEmptyState: bool)

  /** A section as shown: non-empty, with one card per record it counts. */
  predicate Shown(section: Section) {
    0 < section.count && section.count == |section.cards|
  }

  lemma PresentShown(a: Option<Section>, b: Option<Section>, c: Option<Section>)
    requires a.Some? ==> Shown(a.value)
    requires b.Some? ==> Shown(b.value)
    requires c.Some? ==> Shown(c.value)
    ensures |Present(a) + Present(b) + Present(c)| <= 3
    ensures forall k :: 0 <= k < |Present(a) + Present(b) + Present(c)| ==>
              Shown((Present(a) + Present(b) + Present(c))[k])
  {
  }

  /** The whole screen: the header total, at most three sections, each shown
      non-empty with one card per record it counts, and the empty state
      exactly for an empty collection. */
  function Render(judges: seq<Judge>, xs: seq<Submission>): (d: Dashboard)
    ensures d.total == |xs| && (d.showsEmptyState <==> xs == [])
    ensures d.pendingCount == |PendingSubmissions(xs)| && d.assignedCount == |AssignedSubmissions(xs)|
    ensures d.judgedCount == |JudgedSubmissions(xs)|
    ensures d.sections == Present(RenderSection(judges, "Pending Assignment", PendingSubmissions(xs)))
                          + Present(RenderSection(judges, "Under Review", AssignedSubmissions(xs)))
                          + Present(RenderSection(judges, "Judged", JudgedSubmissions(xs)))
    ensures |d.sections| <= 3 && forall k :: 0 <= k < |d.sections| ==> Shown(d.sections[k])
  {
    var pendingList := PendingSubmissions(xs);
    var assignedList := AssignedSubmissions(xs);
    var judgedList := JudgedSubmissions(xs);
    var a := RenderSection(judges, "Pending Assignment", pendingList);
    var b := RenderSection(judges, "Under Review", assignedList);
    var c := RenderSection(judges, "Judged", judgedList);
    PresentShown(a, b, c);
    Dashboard(
      |xs|, |pendingList|, |assignedList|, |judgedList|,
      Present(a) + Present(b) + Present(c),
      |xs| == 0)
  }

  function Titles(sections: seq<Section>): (ts: seq<string>)
    ensures |ts| == |sections| && forall k :: 0 <= k < |ts| ==> ts[k] == sections[k].title
  {
    seq(|sections|, k requires 0 <= k < |sections| => sections[k].title)
  }

  lemma TitlesAppend(a: seq<Section>, b: seq<Section>)
    ensures Titles(a + b) == Titles(a) + Titles(b)
  {
  }

  lemma TitlesOfSection(judges: seq<Judge>, title: string, data: seq<Submission>)
    ensures Titles(Present(RenderSection(judges, title, data))) == if |data| > 0 then [title] else []
  {
  }

  /** The sections shown, in order, are exactly those whose lists are
      non-empty. */
  lemma RenderShowsNonEmptySections(judges: seq<Judge>, xs: seq<Submission>)
    ensures Titles(Render(judges, xs).sections) ==
              (if |PendingSubmissions(xs)| > 0 then ["Pending Assignment"] else [])
              + (if |AssignedSubmissions(xs)| > 0 then ["Under Review"] else [])
              + (if |JudgedSubmissions(xs)| > 0 then ["Judged"] else [])
  {
    var a := Present(RenderSection(judges, "Pending Assignment", PendingSubmissions(xs)));
    var b := Present(RenderSection(judges, "Under Review", AssignedSubmissions(xs)));
    var c := Present(RenderSection(judges, "Judged", JudgedSubmissions(xs)));
    assert Render(judges, xs).sections == a + b + c;
    TitlesAppend(a, b);
    TitlesAppend(a + b, c);
    TitlesOfSection(judges, "Pending Assignment", PendingSubmissions(xs));
    TitlesOfSection(judges, "Under Review", AssignedSubmissions(xs));
    TitlesOfSection(judges, "Judged", JudgedSubmissions(xs));
  }

  /** The empty state shows exactly when there are no submissions, and then
      no section shows. */
  lemma EmptyStateIffNoSubmissions(judges: seq<Judge>, xs: seq<Submission>)
    ensures Render(judges, xs).showsEmptyState <==> |xs| == 0
    ensures Render(judges, xs).showsEmptyState ==> Render(judges, xs).sections == []
  {
  }

  /** Records whose status is none of the three appear in no section, so a
      non-empty collection of only such records shows neither a section nor
      the empty state. */
  lemma UnknownStatusShowsNothing(judges: seq<Judge>, xs: seq<Submission>)
    requires xs != [] && forall k :: 0 <= k < |xs| ==> !KnownStatus(xs[k].status)
    ensures Render(judges, xs).sections == []
    ensures !Render(judges, xs).showsEmptyState
  {
    forall s | s in xs ensures !KnownStatus(s.status) {
      var k :| 0 <= k < |xs| && xs[k] == s;
    }
    FilterEmptyIff(xs, IsPending);
    FilterEmptyIff(xs, IsAssigned);
    FilterEmptyIff(xs, IsJudged);
  }
}
