/** The assign screen: the admin picks a judge from the roster for one
    submission and assigns it. Nothing stops a judged submission from being
    assigned again: its status goes back to 'assigned'. */
module AssignJudge {
  import opened Optional
  import opened Records
  import opened AppContext
  import Mocks

  /** The patch `handleAssign` spreads: `{ assignedJudgeId, status: 'assigned' }`. */
  function AssignPatch(judgeId: string): Patch {
    NoChanges.(assignedJudgeId := Some(judgeId), status := Some(ASSIGNED))
  }

  datatype AssignOutcome =
    | NotFound           // only the "Submission not found" view renders
    | Rejected(message: string)
    | Assigned

  /** The outcome of `handleAssign` and the collection it leaves. */
  datatype AssignStep = AssignStep(outcome: AssignOutcome, submissions: seq<Submission>)

  const SelectJudgeMessage: string := "Please select a judge"

  /** `handleAssign` on the collection `xs`: without a submission there is no
      button to press; without a selection it alerts and changes nothing;
      otherwise it patches the submission found. */
  function Assign(xs: seq<Submission>, submissionId: string, selectedJudgeId: string): (r: AssignStep)
    ensures r.outcome == NotFound <==> forall k :: 0 <= k < |xs| ==> xs[k].id != submissionId
    ensures r.outcome == Rejected(SelectJudgeMessage) <==> r.outcome != NotFound && selectedJudgeId == ""
    ensures r.outcome == Assigned <==> r.outcome != NotFound && selectedJudgeId != ""
    ensures |r.submissions| == |xs|
    ensures r.outcome != Assigned ==> r.submissions == xs
  {
    match FindSubmission(xs, submissionId)
    case None => AssignStep(NotFound, xs)
    case Some(s) =>
      if selectedJudgeId == "" then AssignStep(Rejected(SelectJudgeMessage), xs)
      else AssignStep(Assigned, UpdateAll(xs, s.id, AssignPatch(selectedJudgeId)))
  }

  /** An unknown submission id assigns nothing. */
  lemma UnknownSubmissionAssignsNothing(xs: seq<Submission>, submissionId: string, selectedJudgeId: string)
    requires forall k :: 0 <= k < |xs| ==> xs[k].id != submissionId
    ensures Assign(xs, submissionId, selectedJudgeId) == AssignStep(NotFound, xs)
  {
  }

  /** An empty selection is rejected with an alert and no update. */
  lemma EmptySelectionRejected(xs: seq<Submission>, submissionId: string)
    requires exists k :: 0 <= k < |xs| && xs[k].id == submissionId
    ensures Assign(xs, submissionId, "") == AssignStep(Rejected(SelectJudgeMessage), xs)
  {
  }

  /** A non-empty selection for a known submission: every record with that id
      gets the judge and status 'assigned', whatever its status was, and keeps
      every other field (rating and feedback included); every other record
      is untouched. */
  lemma AssignEffect(xs: seq<Submission>, submissionId: string, selectedJudgeId: string)
    requires exists k :: 0 <= k < |xs| && xs[k].id == submissionId
    requires selectedJudgeId != ""
    ensures Assign(xs, submissionId, selectedJudgeId).outcome == Assigned
    ensures |Assign(xs, submissionId, selectedJudgeId).submissions| == |xs|
    ensures forall k :: 0 <= k < |xs| && xs[k].id == submissionId ==>
              Assign(xs, submissionId, selectedJudgeId).submissions[k] ==
                xs[k].(assignedJudgeId := Some(selectedJudgeId), status := ASSIGNED)
    ensures forall k :: 0 <= k < |xs| && xs[k].id != submissionId ==>
              Assign(xs, submissionId, selectedJudgeId).submissions[k] == xs[k]
  {
    var r := Assign(xs, submissionId, selectedJudgeId).submissions;
    forall k | 0 <= k < |xs| && xs[k].id == submissionId
      ensures r[k] == xs[k].(assignedJudgeId := Some(selectedJudgeId), status := ASSIGNED)
    {
      MergeFields(xs[k], AssignPatch(selectedJudgeId));
    }
  }

  /** Status is not monotone: the judged seed submission, assigned again,
      is back to 'assigned' and still carries its rating. */
  lemma ReassigningJudgedSubmission()
    ensures Mocks.SeedSubmissions[2].status == JUDGED
    ensures Assign(Mocks.SeedSubmissions, "s3", "j1").submissions[2].status == ASSIGNED
    ensures Assign(Mocks.SeedSubmissions, "s3", "j1").submissions[2].rating == Some(8.5)
  {
    assert Mocks.SeedSubmissions[2].id == "s3";
    AssignEffect(Mocks.SeedSubmissions, "s3", "j1");
  }

  /** Assigning a roster judge keeps the collection's judge references
      resolvable, its statuses known and its ids distinct. */
  lemma AssignKeepsWellFormed(xs: seq<Submission>, judges: seq<Judge>, submissionId: string, selectedJudgeId: string)
    requires JudgeRefsResolve(xs, judges) && StatusesKnown(xs) && DistinctIds(xs)
    requires selectedJudgeId == "" || IsJudgeId(judges, selectedJudgeId)
    ensures JudgeRefsResolve(Assign(xs, submissionId, selectedJudgeId).submissions, judges)
    ensures StatusesKnown(Assign(xs, submissionId, selectedJudgeId).submissions)
    ensures DistinctIds(Assign(xs, submissionId, selectedJudgeId).submissions)
  {
    var found := FindSubmission(xs, submissionId);
    if found.Some? && selectedJudgeId != "" {
      var p := AssignPatch(selectedJudgeId);
      UpdateAllKeepsJudgeRefs(xs, judges, found.value.id, p);
      UpdateAllKeepsStatusesKnown(xs, found.value.id, p);
      UpdateAllKeepsIds(xs, found.value.id, p);
    }
  }

  /** One roster entry as the screen draws it. */
  datatype JudgeRow = JudgeRow(judge: Judge, isSelected: bool, isCurrent: bool)

  /** `judges.map(...)` with `isSelected = selectedJudgeId === judge.id` and
      `isCurrent = submission.assignedJudgeId === judge.id`. */
  function JudgeRows(judges: seq<Judge>, s: Submission, selectedJudgeId: string): (rows: seq<JudgeRow>)
    ensures |rows| == |judges|
    ensures forall k :: 0 <= k < |rows| ==> rows[k].judge == judges[k]
    ensures forall k :: 0 <= k < |rows| ==> (rows[k].isSelected <==> judges[k].id == selectedJudgeId)
    ensures forall k :: 0 <= k < |rows| ==> (rows[k].isCurrent <==> s.assignedJudgeId == Some(judges[k].id))
  {
    seq(|judges|, k requires 0 <= k < |judges| =>
      JudgeRow(judges[k], selectedJudgeId == judges[k].id, s.assignedJudgeId == Some(judges[k].id)))
  }

  /** With distinct roster ids, at most one row is selected and at most one
      is marked current; a submission without a judge has no current row. */
  lemma AtMostOneMarked(judges: seq<Judge>, s: Submission, selectedJudgeId: string)
    requires DistinctJudgeIds(judges)
    ensures forall i, j :: 0 <= i < j < |judges| ==>
              !(JudgeRows(judges, s, selectedJudgeId)[i].isSelected && JudgeRows(judges, s, selectedJudgeId)[j].isSelected)
    ensures forall i, j :: 0 <= i < j < |judges| ==>
              !(JudgeRows(judges, s, selectedJudgeId)[i].isCurrent && JudgeRows(judges, s, selectedJudgeId)[j].isCurrent)
    ensures s.assignedJudgeId.None? ==>
              forall k :: 0 <= k < |judges| ==> !JudgeRows(judges, s, selectedJudgeId)[k].isCurrent
  {
  }

  /** The assign button is disabled exactly when nothing is selected. */
  predicate AssignButtonEnabled(selectedJudgeId: string) {
    selectedJudgeId != ""
  }

  /** The screen: its submission id, and the judge tapped last (`''` at first). */
  class AssignScreen {
    const store: Store
    const submissionId: string
    var selectedJudgeId: string

    /** The selection is empty or the id of a roster judge: only roster taps
        set it. */
    ghost predicate Valid()
      reads this
    {
      selectedJudgeId == "" || IsJudgeId(store.judges, selectedJudgeId)
    }

    constructor (store: Store, submissionId: string)
      ensures this.store == store && this.submissionId == submissionId
      ensures selectedJudgeId == "" && Valid()
    {
      this.store := store;
      this.submissionId := submissionId;
      selectedJudgeId := "";
    }

    /** Tapping a roster judge selects it. */
    method TapJudge(j: Judge)
      requires j in store.judges
      modifies this`selectedJudgeId
      ensures selectedJudgeId == j.id && Valid()
    {
      selectedJudgeId := j.id;
    }

    /** `handleAssign`. The button is enabled exactly when a judge is
        selected: pressing it then never raises the selection alert, and
        with it disabled nothing is assigned. A tapped selection keeps every
        judge reference in the collection resolvable. */
    method HandleAssign() returns (outcome: AssignOutcome)
      requires Valid()
      modifies store`submissions, store`storage
      ensures AssignStep(outcome, store.submissions) == Assign(old(store.submissions), submissionId, selectedJudgeId)
      ensures outcome == Assigned ==> store.storage == old(store.storage).(submissions := Some(store.submissions))
      ensures outcome != Assigned ==> store.storage == old(store.storage)
      ensures AssignButtonEnabled(selectedJudgeId) ==> outcome != Rejected(SelectJudgeMessage)
      ensures !AssignButtonEnabled(selectedJudgeId) ==> outcome != Assigned
      ensures JudgeRefsResolve(old(store.submissions), store.judges) ==>
                JudgeRefsResolve(store.submissions, store.judges)
    {
      var xs := store.submissions;
      var found := FindSubmission(xs, submissionId);
      if found.None? {
        return NotFound;
      }
      if selectedJudgeId == "" {
        return Rejected(SelectJudgeMessage);
      }
      if JudgeRefsResolve(xs, store.judges) {
        UpdateAllKeepsJudgeRefs(xs, store.judges, found.value.id, AssignPatch(selectedJudgeId));
      }
      store.UpdateSubmission(found.value.id, AssignPatch(selectedJudgeId));
      outcome := Assigned;
    }
  }
}
