/** The seed data: the judge roster and the three sample submissions that
    the store falls back to when nothing usable is stored. */
module Mocks {
  import opened Optional
  import opened Records

  const SeedJudges: seq<Judge> := [
    Judge("j1", "Sarah Johnson"),
    Judge("j2", "Michael Chen"),
    Judge("j3", "Emily Rodriguez")
  ]

  /** `submittedAt` holds `new Date('2025-01-10')` and so on, as milliseconds
      since the epoch (midnight UTC). */
  const SeedSubmissions: seq<Submission> := [
    Submission("s1", "Summer Dreams", "Alex Turner",
      "https://www2.cs.uic.edu/~i101/SoundFiles/BabyElephantWalk60.wav",
      "c1", "Alex Turner", 1736467200000, PENDING,
      None, None, None),
    Submission("s2", "Midnight Jazz", "Lisa Marie",
      "https://www2.cs.uic.edu/~i101/SoundFiles/PinkPanther30.wav",
      "c2", "Lisa Marie", 1736640000000, ASSIGNED,
      Some("j1"), None, None),
    Submission("s3", "Electric Soul", "Jordan Blake",
      "https://www2.cs.uic.edu/~i101/SoundFiles/CantinaBand60.wav",
      "c3", "Jordan Blake", 1736726400000, JUDGED,
      Some("j2"), Some(8.5), Some("Great energy and creativity!"))
  ]

  /** The roster ids j1, j2, j3 are pairwise distinct. */
  lemma SeedJudgeIdsDistinct()
    ensures DistinctJudgeIds(SeedJudges)
    ensures |SeedJudges| == 3
  {
  }

  /** The seed ids s1, s2, s3 are pairwise distinct. */
  lemma SeedSubmissionIdsDistinct()
    ensures DistinctIds(SeedSubmissions)
    ensures |SeedSubmissions| == 3
  {
  }

  /** Every judge a seed submission names is on the roster. */
  lemma SeedJudgeRefsResolve()
    ensures JudgeRefsResolve(SeedSubmissions, SeedJudges)
  {
    assert SeedJudges[0] in SeedJudges && SeedJudges[1] in SeedJudges;
  }

  /** One seed record per status, each of the shape its status calls for;
      the judged one is rated 8.5. */
  lemma SeedStatusShapes()
    ensures StatusesKnown(SeedSubmissions)
    ensures forall k :: 0 <= k < |SeedSubmissions| ==> StatusShape(SeedSubmissions[k])
    ensures SeedSubmissions[0].status == PENDING
    ensures SeedSubmissions[1].status == ASSIGNED
    ensures SeedSubmissions[2].status == JUDGED && SeedSubmissions[2].rating == Some(8.5)
  {
  }
}
