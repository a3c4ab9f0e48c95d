/** The rate screen: the judge picks one to ten stars, writes feedback and
    submits; and the `m:ss` clock shown under the player. */
module RateSubmission {
  import opened Optional
  import opened Records
  import opened Text
  import opened AppContext
  import JudgePanel

  /** The star buttons, each setting the rating to its number. */
  const Stars: seq<int> := [1, 2, 3, 4, 5, 6, 7, 8, 9, 10]

  lemma StarsRange()
    ensures forall star :: star in Stars <==> 1 <= star <= 10
  {
    forall star | 1 <= star <= 10 ensures star in Stars {
      assert Stars[star - 1] == star;
    }
  }

  const RatingMessage: string := "Please provide a rating"
  const FeedbackMessage: string := "Please provide feedback"

  /** The two checks of `handleSubmit`, rating first: the alert it raises,
      or `None` when it goes ahead. */
  function CheckReview(rating: int, feedback: string): (r: Option<string>)
    ensures r == Some(RatingMessage) <==> rating == 0
    ensures r == Some(FeedbackMessage) <==> rating != 0 && AllWhitespace(feedback)
    ensures r.None? <==> rating != 0 && !AllWhitespace(feedback)
  {
    TrimEmptyIff(feedback);
    if rating == 0 then Some(RatingMessage)
    else if Trim(feedback) == "" then Some(FeedbackMessage)
    else None
  }

  /** The patch `handleSubmit` spreads: `{ rating, feedback: feedback.trim(),
      status: 'judged' }`. */
  function ReviewPatch(rating: int, feedback: string): Patch {
    NoChanges.(rating := Some(rating as real), feedback := Some(Trim(feedback)), status := Some(JUDGED))
  }

  datatype RateOutcome =
    | NotFound           // only the "Submission not found" view renders
    | Rejected(message: string)
    | Submitted

  /** The outcome of `handleSubmit` and the collection it leaves. */
  datatype RateStep = RateStep(outcome: RateOutcome, submissions: seq<Submission>)

  /** `handleSubmit` on the collection `xs`: without a submission there is no
      form; a missing rating, then blank feedback, alert and change nothing;
      otherwise the review is spread over the submission found. */
  function Rate(xs: seq<Submission>, submissionId: string, rating: int, feedback: string): (r: RateStep)
    ensures r.outcome == NotFound <==> forall k :: 0 <= k < |xs| ==> xs[k].id != submissionId
    ensures r.outcome == Rejected(RatingMessage) <==> r.outcome != NotFound && rating == 0
    ensures r.outcome == Rejected(FeedbackMessage) <==>
              r.outcome != NotFound && rating != 0 && AllWhitespace(feedback)
    ensures r.outcome == Submitted <==> r.outcome != NotFound && rating != 0 && !AllWhitespace(feedback)
    ensures |r.submissions| == |xs|
    ensures r.outcome != Submitted ==> r.submissions == xs
  {
    match FindSubmission(xs, submissionId)
    case None => RateStep(NotFound, xs)
    case Some(s) =>
      match CheckReview(rating, feedback)
      case Some(message) => RateStep(Rejected(message), xs)
      case None => RateStep(Submitted, UpdateAll(xs, s.id, ReviewPatch(rating, feedback)))
  }

  /** An unknown submission id rates nothing. */
  lemma UnknownSubmissionRatesNothing(xs: seq<Submission>, submissionId: string, rating: int, feedback: string)
    requires forall k :: 0 <= k < |xs| ==> xs[k].id != submissionId
    ensures Rate(xs, submissionId, rating, feedback) == RateStep(NotFound, xs)
  {
  }

  /** A zero rating is rejected before the feedback is looked at, and blank
      feedback is rejected next; neither updates anything. */
  lemma InvalidReviewRejected(xs: seq<Submission>, submissionId: string, rating: int, feedback: string)
    requires exists k :: 0 <= k < |xs| && xs[k].id == submissionId
    ensures rating == 0 ==> Rate(xs, submissionId, rating, feedback) == RateStep(Rejected(RatingMessage), xs)
    ensures rating != 0 && AllWhitespace(feedback) ==>
              Rate(xs, submissionId, rating, feedback) == RateStep(Rejected(FeedbackMessage), xs)
  {
  }

  /** Accepted input: every record with that id gets the rating, the trimmed
      feedback and status 'judged', and keeps every other field (its judge
      included); every other record is untouched. */
  lemma RateEffect(xs: seq<Submission>, submissionId: string, rating: int, feedback: string)
    requires exists k :: 0 <= k < |xs| && xs[k].id == submissionId
    requires rating != 0 && !AllWhitespace(feedback)
    ensures Rate(xs, submissionId, rating, feedback).outcome == Submitted
    ensures |Rate(xs, submissionId, rating, feedback).submissions| == |xs|
    ensures forall k :: 0 <= k < |xs| && xs[k].id == submissionId ==>
              Rate(xs, submissionId, rating, feedback).submissions[k] ==
                xs[k].(rating := Some(rating as real), feedback := Some(Trim(feedback)), status := JUDGED)
    ensures forall k :: 0 <= k < |xs| && xs[k].id != submissionId ==>
              Rate(xs, submissionId, rating, feedback).submissions[k] == xs[k]
  {
    var r := Rate(xs, submissionId, rating, feedback).submissions;
    forall k | 0 <= k < |xs| && xs[k].id == submissionId
      ensures r[k] == xs[k].(rating := Some(rating as real), feedback := Some(Trim(feedback)), status := JUDGED)
    {
      MergeFields(xs[k], ReviewPatch(rating, feedback));
    }
  }

  /** A star rating that passes the checks lies in 1..10; the record it rates
      then has the judged shape if it had a judge, and its card on the judge
      panel reads "Reviewed" with that rating. */
  lemma AcceptedReviewIsJudged(xs: seq<Submission>, submissionId: string, rating: int, feedback: string, k: nat)
    requires rating == 0 || rating in Stars
    requires k < |xs| && xs[k].id == submissionId && xs[k].assignedJudgeId.Some?
    requires CheckReview(rating, feedback).None?
    ensures 1 <= rating <= 10
    ensures StatusShape(Rate(xs, submissionId, rating, feedback).submissions[k])
    ensures JudgePanel.LabelFor(Rate(xs, submissionId, rating, feedback).submissions[k]) ==
              JudgePanel.Reviewed(rating as real)
  {
    StarsRange();
    RateEffect(xs, submissionId, rating, feedback);
  }

  /** `formatTime`: whole seconds of `millis` as minutes, a colon, and the
      seconds padded to two digits. The minutes carry no leading zero. */
  function FormatTime(millis: nat): (r: string)
    ensures |r| >= 4 && r[|r| - 3] == ':'
    ensures r[0] == '0' ==> |r| == 4
  {
    var totalSeconds := millis / 1000;
    var minutes := totalSeconds / 60;
    var seconds := totalSeconds % 60;
    DigitsLength(seconds);
    Digits(minutes) + ":" + PadStart(Digits(seconds), 2, '0')
  }

  /** Reads an `m:ss` clock back into whole seconds: digits, a colon, exactly
      two digits below 60. */
  function ParseClock(r: string): (total: Option<nat>)
    ensures total.Some? ==> |r| >= 4 && r[|r| - 3] == ':'
  {
    if |r| >= 4 && r[|r| - 3] == ':' && AllDigits(r[..|r| - 3]) && AllDigits(r[|r| - 2..]) then
      var seconds := ParseDigits(r[|r| - 2..]);
      if seconds < 60 then Some(ParseDigits(r[..|r| - 3]) * 60 + seconds) else None
    else None
  }

  /** Two digits for a number below 60. */
  lemma {:induction false} PaddedSeconds(seconds: nat)
    requires seconds < 60
    ensures |PadStart(Digits(seconds), 2, '0')| == 2
    ensures AllDigits(PadStart(Digits(seconds), 2, '0'))
    ensures ParseDigits(PadStart(Digits(seconds), 2, '0')) == seconds
  {
    DigitsLength(seconds);
    var d := Digits(seconds);
    var padded := PadStart(d, 2, '0');
    var z := padded[..|padded| - |d|];
    assert padded == z + d;
    ParseDigitsIgnoresLeadingZeros(z, d);
    ParseDigitsOfDigits(seconds);
  }

  /** The three pieces of a clock string. */
  lemma ClockPieces(minutes: string, seconds: string)
    requires |seconds| == 2
    ensures |minutes + ":" + seconds| == |minutes| + 3
    ensures (minutes + ":" + seconds)[|minutes|] == ':'
    ensures (minutes + ":" + seconds)[..|minutes|] == minutes
    ensures (minutes + ":" + seconds)[|minutes| + 1..] == seconds
  {
  }

  /** A clock built from a digit string, a colon and two digits below 60
      reads back as minutes times 60 plus seconds. */
  lemma ParseClockOf(minutes: string, seconds: string)
    requires |minutes| >= 1 && AllDigits(minutes)
    requires |seconds| == 2 && AllDigits(seconds) && ParseDigits(seconds) < 60
    ensures ParseClock(minutes + ":" + seconds) == Some(ParseDigits(minutes) * 60 + ParseDigits(seconds))
  {
    var r := minutes + ":" + seconds;
    ClockPieces(minutes, seconds);
    var m, s := ParseDigits(r[..|r| - 3]), ParseDigits(r[|r| - 2..]);
    assert m == ParseDigits(minutes) && s == ParseDigits(seconds);
    assert ParseClock(r) == Some(m * 60 + s);
  }

  /** Minutes and seconds recombine into the total. */
  lemma MinutesAndSeconds(total: nat)
    ensures total % 60 < 60 && (total / 60) * 60 + total % 60 == total
  {
  }

  /** The clock reads back as the whole seconds of `millis`: the minutes
      field times 60 plus the seconds field, with seconds below 60. */
  lemma {:induction false} FormatTimeRoundTrip(millis: nat)
    ensures ParseClock(FormatTime(millis)) == Some(millis / 1000)
  {
    var total := millis / 1000;
    var m, s := total / 60, total % 60;
    MinutesAndSeconds(total);
    var minutes := Digits(m);
    var seconds := PadStart(Digits(s), 2, '0');
    PaddedSeconds(s);
    ParseDigitsOfDigits(m);
    assert FormatTime(millis) == minutes + ":" + seconds;
    ParseClockOf(minutes, seconds);
    assert ParseDigits(minutes) * 60 + ParseDigits(seconds) == total;
  }

  /** The screen's own state: the rating (0 until a star is tapped), the
      feedback text, and whether a submission is under way. */
  class RateScreen {
    const store: Store
    const submissionId: string
    var rating: int
    var feedback: string
    var isSubmitting: bool

    /** Only the stars set the rating. */
    ghost predicate Valid()
      reads this
    {
      rating == 0 || rating in Stars
    }

    constructor (store: Store, submissionId: string)
      ensures this.store == store && this.submissionId == submissionId
      ensures rating == 0 && feedback == "" && !isSubmitting && Valid()
    {
      this.store := store;
      this.submissionId := submissionId;
      rating := 0;
      feedback := "";
      isSubmitting := false;
    }

    method TapStar(star: int)
      requires star in Stars
      modifies this`rating
      ensures rating == star && Valid()
    {
      rating := star;
    }

    method ChangeFeedback(text: string)
      modifies this`feedback
      ensures feedback == text
    {
      feedback := text;
    }

    /** The submit button is disabled while submitting or without a rating. */
    predicate SubmitEnabled()
      reads this
    {
      !isSubmitting && rating != 0
    }

    /** `handleSubmit`. With the button enabled there is a rating, so the
        rating alert never shows. */
    method HandleSubmit() returns (outcome: RateOutcome)
      requires Valid()
      modifies this`isSubmitting, store`submissions, store`storage
      ensures RateStep(outcome, store.submissions) == Rate(old(store.submissions), submissionId, rating, feedback)
      ensures outcome == Submitted ==> isSubmitting && 1 <= rating <= 10
      ensures outcome == Submitted ==> store.storage == old(store.storage).(submissions := Some(store.submissions))
      ensures outcome != Submitted ==> isSubmitting == old(isSubmitting) && store.storage == old(store.storage)
      ensures old(SubmitEnabled()) ==> outcome != Rejected(RatingMessage)
    {
      var found := FindSubmission(store.submissions, submissionId);
      if found.None? {
        return NotFound;
      }
      if rating == 0 {
        return Rejected(RatingMessage);
      }
      if Trim(feedback) == "" {
        return Rejected(FeedbackMessage);
      }
      isSubmitting := true;
      store.UpdateSubmission(found.value.id, ReviewPatch(rating, feedback));
      StarsRange();
      outcome := Submitted;
    }

    /** The 500 ms timer after a submission. */
    method SubmitTimerFired()
      modifies this`isSubmitting
      ensures !isSubmitting
    {
      isSubmitting := false;
    }
  }
}
