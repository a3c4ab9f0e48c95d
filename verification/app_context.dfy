/** The submission store shared by every screen: the submissions, the judge
    roster and the session (role and user id), with the rules that load them
    from local storage and the operations that change them and write them
    back. */
module AppContext {
  import opened Optional
  import opened Records
  import Mocks

  /** The outcome of one `getItem`: it threw, or it gave a string or `null`. */
  datatype Read<T> = Failed | Got(value: Option<T>)

  /** The loading rule for submissions. A stored string that is present,
      non-empty and parses is the collection; in every other case (nothing
      stored, an empty string, a read that threw, a parse that threw) the
      seed data is. `parse` stands for `JSON.parse`. */
  function LoadSubmissions(stored: Read<string>, parse: string -> Option<seq<Submission>>): (r: seq<Submission>)
    ensures forall text :: stored == Got(Some(text)) && text != "" && parse(text).Some? ==>
              r == parse(text).value
    ensures r != Mocks.SeedSubmissions ==>
              exists text :: stored == Got(Some(text)) && text != "" && parse(text) == Some(r)
  {
    match stored
    case Failed => Mocks.SeedSubmissions
    case Got(None) => Mocks.SeedSubmissions
    case Got(Some(text)) =>
      if text == "" then Mocks.SeedSubmissions
      else parse(text).GetOr(Mocks.SeedSubmissions)
  }

  /** The signed-in role (`null` when there is none) and user id. */
  datatype Session = Session(role: Option<string>, userId: string)

  /** The initial session, and the one `clearRole` goes back to. */
  const SignedOut: Session := Session(None, "")

  /** The loading rule for the session: if either read throws, nobody is
      signed in; otherwise the stored role (`null` when missing) and the
      stored user id, `''` when missing. */
  function LoadSession(role: Read<string>, userId: Read<string>): (r: Session)
    ensures role.Failed? || userId.Failed? ==> r == SignedOut
    ensures role.Got? && userId.Got? ==> r.role == role.value
    ensures role.Got? && userId.Got? && userId.value.None? ==> r.userId == ""
    ensures role.Got? && userId.Got? && userId.value.Some? ==> r.userId == userId.value.value
  {
    if role.Failed? || userId.Failed? then SignedOut
    else Session(role.value, userId.value.GetOr(""))
  }

  /** A session `selectRole` wrote is the session the next start loads. */
  lemma SessionRestored(role: string, userId: string)
    ensures LoadSession(Got(Some(role)), Got(Some(userId))) == Session(Some(role), userId)
  {
  }

  /** After `clearRole` removed both keys, the next start loads the signed-out
      session. */
  lemma ClearedSessionLoadsSignedOut()
    ensures LoadSession(Got(None), Got(None)) == SignedOut
  {
  }

  /** `submissions.map(s => s.id === id ? { ...s, ...updates } : s)`: the
      patch is spread over every record with that id (all of them, not just
      the first), and every other record is kept as it is, in place. */
  function UpdateAll(xs: seq<Submission>, id: string, p: Patch): (r: seq<Submission>)
    ensures |r| == |xs|
    ensures forall k :: 0 <= k < |xs| && xs[k].id == id ==> r[k] == Merge(xs[k], p)
    ensures forall k :: 0 <= k < |xs| && xs[k].id != id ==> r[k] == xs[k]
  {
    if xs == [] then []
    else [if xs[0].id == id then Merge(xs[0], p) else xs[0]] + UpdateAll(xs[1..], id, p)
  }

  /** An id that no record has leaves the collection as it was. */
  lemma UpdateAllMissingId(xs: seq<Submission>, id: string, p: Patch)
    requires forall k :: 0 <= k < |xs| ==> xs[k].id != id
    ensures UpdateAll(xs, id, p) == xs
  {
  }

  /** Two updates of the same id in a row are one update with the combined
      patch, as long as the first one keeps the id. */
  lemma UpdateAllThen(xs: seq<Submission>, id: string, p: Patch, q: Patch)
    requires p.id.None? || p.id == Some(id)
    ensures UpdateAll(UpdateAll(xs, id, p), id, q) == UpdateAll(xs, id, Then(p, q))
  {
    var once := UpdateAll(xs, id, p);
    var twice := UpdateAll(once, id, q);
    var combined := UpdateAll(xs, id, Then(p, q));
    forall k | 0 <= k < |xs| ensures twice[k] == combined[k] {
      if xs[k].id == id {
        MergeThen(xs[k], p, q);
      }
    }
  }

  /** A patch without an id keeps every record's id, so distinct ids stay
      distinct. */
  lemma UpdateAllKeepsIds(xs: seq<Submission>, id: string, p: Patch)
    requires p.id.None?
    ensures forall k :: 0 <= k < |xs| ==> UpdateAll(xs, id, p)[k].id == xs[k].id
    ensures DistinctIds(xs) ==> DistinctIds(UpdateAll(xs, id, p))
  {
    var r := UpdateAll(xs, id, p);
    forall k | 0 <= k < |xs| ensures r[k].id == xs[k].id {
      if xs[k].id == id {
        MergeFields(xs[k], p);
      }
    }
  }

  /** A patch that sets no status, or a known one, keeps every status known. */
  lemma UpdateAllKeepsStatusesKnown(xs: seq<Submission>, id: string, p: Patch)
    requires StatusesKnown(xs)
    requires p.status.None? || KnownStatus(p.status.value)
    ensures StatusesKnown(UpdateAll(xs, id, p))
  {
    var r := UpdateAll(xs, id, p);
    forall k | 0 <= k < |xs| ensures KnownStatus(r[k].status) {
      if xs[k].id == id {
        MergeFields(xs[k], p);
      }
    }
  }

  /** A patch that names no judge, or a roster judge, keeps every judge
      reference resolvable. */
  lemma UpdateAllKeepsJudgeRefs(xs: seq<Submission>, judges: seq<Judge>, id: string, p: Patch)
    requires JudgeRefsResolve(xs, judges)
    requires p.assignedJudgeId.None? || IsJudgeId(judges, p.assignedJudgeId.value)
    ensures JudgeRefsResolve(UpdateAll(xs, id, p), judges)
  {
    var r := UpdateAll(xs, id, p);
    forall k | 0 <= k < |xs| && r[k].assignedJudgeId.Some?
      ensures IsJudgeId(judges, r[k].assignedJudgeId.value)
    {
      if xs[k].id == id {
        MergeFields(xs[k], p);
      }
    }
  }

  /** What the store has written to storage, one field per key: the
      collection last handed to `JSON.stringify` under `music_submissions`,
      and the session strings under `user_role` and `user_id`; `None` for a
      key that holds nothing. */
  datatype Storage = Storage(
    submissions: Option<seq<Submission>>,
    role: Option<string>,
    userId: Option<string>)

  /** The store. Each mutation installs its new value in memory and writes
      that same value to storage. */
  class Store {
    var submissions: seq<Submission>
    var currentRole: Option<string>
    var currentUserId: string
    /** `useState(mockJudges)`: never set again. */
    const judges: seq<Judge> := Mocks.SeedJudges
    /** Whether each of the two initial reads is still pending. */
    var submissionsLoading: bool
    var sessionLoading: bool
    /** Local storage, as the store last left it. */
    ghost var storage: Storage

    /** A fresh store before either read has come back: no submissions, no
        role, an empty user id, the seed roster; storage holds whatever an
        earlier run left there. */
    constructor (ghost stored: Storage)
      ensures submissions == [] && currentRole == None && currentUserId == ""
      ensures submissionsLoading && sessionLoading && IsLoading()
      ensures storage == stored
    {
      submissions := [];
      currentRole := None;
      currentUserId := "";
      submissionsLoading := true;
      sessionLoading := true;
      storage := stored;
    }

    /** `isLoading`: either initial read is still pending. */
    predicate IsLoading()
      reads this
    {
      submissionsLoading || sessionLoading
    }

    /** The submissions read has come back and its value is installed. */
    method CompleteSubmissionsLoad(stored: Read<string>, parse: string -> Option<seq<Submission>>)
      modifies this`submissions, this`submissionsLoading
      ensures submissions == LoadSubmissions(stored, parse)
      ensures !submissionsLoading
      ensures IsLoading() == sessionLoading
    {
      submissions := LoadSubmissions(stored, parse);
      submissionsLoading := false;
    }

    /** The session read has come back and its value is installed. */
    method CompleteSessionLoad(role: Read<string>, userId: Read<string>)
      modifies this`currentRole, this`currentUserId, this`sessionLoading
      ensures Session(currentRole, currentUserId) == LoadSession(role, userId)
      ensures !sessionLoading
      ensures IsLoading() == submissionsLoading
    {
      var session := LoadSession(role, userId);
      currentRole := session.role;
      currentUserId := session.userId;
      sessionLoading := false;
    }

    /** `addSubmission`: append, then write the new collection. */
    method AddSubmission(s: Submission)
      modifies this`submissions, this`storage
      ensures submissions == old(submissions) + [s]
      ensures storage == old(storage).(submissions := Some(submissions))
    {
      var updated := submissions + [s];
      submissions := updated;
      storage := storage.(submissions := Some(updated));
    }

    /** `updateSubmission`: patch every record with the id, then write the
        new collection. */
    method UpdateSubmission(id: string, p: Patch)
      modifies this`submissions, this`storage
      ensures submissions == UpdateAll(old(submissions), id, p)
      ensures storage == old(storage).(submissions := Some(submissions))
    {
      var updated := UpdateAll(submissions, id, p);
      submissions := updated;
      storage := storage.(submissions := Some(updated));
    }

    /** `selectRole`: set the role and the user id, then write both. */
    method SelectRole(role: string, userId: string)
      modifies this`currentRole, this`currentUserId, this`storage
      ensures currentRole == Some(role) && currentUserId == userId
      ensures storage == old(storage).(role := Some(role), userId := Some(userId))
    {
      currentRole := Some(role);
      currentUserId := userId;
      storage := storage.(role := Some(role));
      storage := storage.(userId := Some(userId));
    }

    /** `clearRole`: remove both stored keys, then go back to the signed-out
        session. */
    method ClearRole()
      modifies this`currentRole, this`currentUserId, this`storage
      ensures Session(currentRole, currentUserId) == SignedOut
      ensures storage == old(storage).(role := None, userId := None)
    {
      storage := storage.(role := None);
      storage := storage.(userId := None);
      currentRole := None;
      currentUserId := "";
    }
  }

  /** After `selectRole` then `clearRole` the session is the signed-out one
      and neither key is stored; a second `clearRole` leaves the session and
      the storage exactly as the first one left them. */
  method SelectThenClearIsSignedOut(ghost stored: Storage, role: string, userId: string)
    returns (store: Store, ghost afterFirst: Session, ghost storedAfterFirst: Storage)
    ensures afterFirst == SignedOut && storedAfterFirst == stored.(role := None, userId := None)
    ensures Session(store.currentRole, store.currentUserId) == afterFirst
    ensures store.storage == storedAfterFirst
  {
    store := new Store(stored);
    store.SelectRole(role, userId);
    store.ClearRole();
    afterFirst := Session(store.currentRole, store.currentUserId);
    storedAfterFirst := store.storage;
    store.ClearRole();
  }
}
