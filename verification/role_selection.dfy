/** The role selection screen: the user id each role signs in with, and the
    route a signed-in role is sent to. */
module RoleSelection {
  import opened Optional
  import opened Records
  import opened Seqs
  import opened Text
  import opened AppContext
  import JudgePanel
  import Mocks

  const CONTESTANT: string := "contestant"
  const ADMIN: string := "admin"
  const JUDGE: string := "judge"

  /** The user id `handleRoleSelect` picks: `c` and the timestamp for a
      contestant, `admin1` for the admin, and `j` and the timestamp for any
      other role. `now` stands for `Date.now()`. */
  function UserIdFor(role: string, now: nat): (userId: string)
    ensures role == ADMIN ==> userId == "admin1"
    ensures |userId| >= 2
    ensures userId[0] == (if role == CONTESTANT then 'c' else if role == ADMIN then 'a' else 'j')
  {
    if role == CONTESTANT then "c" + Digits(now)
    else if role == ADMIN then "admin1"
    else "j" + Digits(now)
  }

  /** Outside the admin, the id is a prefix letter followed by the decimal
      timestamp without leading zeros, which reads back from it; so two
      sign-ins under the same role at different times get different ids. */
  lemma TimestampReadsBack(role: string, now: nat)
    requires role != ADMIN
    ensures AllDigits(UserIdFor(role, now)[1..])
    ensures ParseDigits(UserIdFor(role, now)[1..]) == now
    ensures UserIdFor(role, now)[1] == '0' ==> |UserIdFor(role, now)| == 2
  {
    assert UserIdFor(role, now)[1..] == Digits(now);
    ParseDigitsOfDigits(now);
  }

  lemma UserIdInjective(role: string, now: nat, later: nat)
    requires role != ADMIN && UserIdFor(role, now) == UserIdFor(role, later)
    ensures now == later
  {
    TimestampReadsBack(role, now);
    TimestampReadsBack(role, later);
  }

  /** The three roles never share an id, whatever the timestamps. */
  lemma RolesGetDistinctIds(now: nat, other: nat)
    ensures UserIdFor(CONTESTANT, now) != UserIdFor(ADMIN, other)
    ensures UserIdFor(CONTESTANT, now) != UserIdFor(JUDGE, other)
    ensures UserIdFor(JUDGE, now) != UserIdFor(ADMIN, other)
  {
  }

  /** A judge signed in at any timestamp from 10 on has an id no roster judge
      has, so while every assigned judge id names a roster judge their panel
      lists nothing. */
  lemma {:induction false} JudgeSessionMatchesNoRosterJudge(xs: seq<Submission>, now: nat)
    requires now >= 10
    requires JudgeRefsResolve(xs, Mocks.SeedJudges)
    ensures forall j :: j in Mocks.SeedJudges ==> j.id != UserIdFor(JUDGE, now)
    ensures JudgePanel.MyAssignments(xs, UserIdFor(JUDGE, now)) == []
  {
    var userId := UserIdFor(JUDGE, now);
    DigitsLength(now);
    assert |userId| >= 3;
    forall j | j in Mocks.SeedJudges ensures j.id != userId {
      assert |j.id| == 2;
    }
    forall s | s in xs ensures !JudgePanel.AssignedTo(userId, s) {
      var k :| 0 <= k < |xs| && xs[k] == s;
      if s.assignedJudgeId.Some? {
        assert IsJudgeId(Mocks.SeedJudges, xs[k].assignedJudgeId.value);
      }
    }
    FilterEmptyIff(xs, (s: Submission) => JudgePanel.AssignedTo(userId, s));
  }

  /** The redirect effect: once loading is over and a role is set (and not
      the empty string), contestant, admin and judge each go to their route,
      and any other role stays on this screen. */
  function Redirect(currentRole: Option<string>, isLoading: bool): (route: Option<string>)
    ensures route.Some? <==>
              !isLoading && currentRole.Some? && currentRole.value in [CONTESTANT, ADMIN, JUDGE]
    ensures route.Some? ==> route.value == "/" + currentRole.value
  {
    if currentRole.Some? && currentRole.value != "" && !isLoading then
      if currentRole.value == CONTESTANT then Some("/contestant")
      else if currentRole.value == ADMIN then Some("/admin")
      else if currentRole.value == JUDGE then Some("/judge")
      else None
    else None
  }

  /** While the store is loading, nothing redirects. */
  lemma NoRedirectWhileLoading(currentRole: Option<string>)
    ensures Redirect(currentRole, true) == None
  {
  }

  /** `handleRoleSelect`: the role is passed to `selectRole` as it was chosen,
      with the id it derives; once loaded, the screen then sends a known role
      to its route. */
  method HandleRoleSelect(store: Store, role: string, now: nat)
    modifies store`currentRole, store`currentUserId, store`storage
    ensures store.currentRole == Some(role) && store.currentUserId == UserIdFor(role, now)
    ensures store.storage == old(store.storage).(role := Some(role), userId := Some(UserIdFor(role, now)))
    ensures store.IsLoading() == old(store.IsLoading())
    ensures !store.IsLoading() && role in [CONTESTANT, ADMIN, JUDGE] ==>
              Redirect(store.currentRole, store.IsLoading()) == Some("/" + role)
  {
    store.SelectRole(role, UserIdFor(role, now));
  }
}
