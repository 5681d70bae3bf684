/**
  The Student dashboard: the vote history lookup, the per-poll pending-vote
  lock that keeps one vote request in flight per poll, the option buttons
  derived from that state, the data fetch and the profile save.
 */
module Student {
  import opened Domain
  import opened Guards
  import opened Session

  /** A vote's `pollId` as the dashboard endpoint returns it: populated with
      the poll document, a bare id string, or missing. */
  datatype PollRef = PopulatedPoll(id: PollId) | PollIdString(id: PollId) | NoPoll

  datatype VoteRecord = VoteRecord(pollRef: PollRef, optionIndex: int)

  datatype Badge = Badge(badgeName: string)

  /** `v.pollId?._id === pollId || v.pollId === pollId`. */
  predicate RefersTo(v: VoteRecord, pollId: PollId) {
    match v.pollRef
    case PopulatedPoll(id) => id == pollId
    case PollIdString(id) => id == pollId
    case NoPoll => false
  }

  /** `votedPolls.some(...)`: some vote in the history refers to the poll. */
  function HasVoted(votes: seq<VoteRecord>, pollId: PollId): (b: bool)
    ensures b <==> exists k :: 0 <= k < |votes| && RefersTo(votes[k], pollId)
    decreases |votes|
  {
    if votes == [] then false else RefersTo(votes[0], pollId) || HasVoted(votes[1..], pollId)
  }

  /** Where `votedPolls.find(...)` stops: the first vote referring to the poll. */
  function FirstVoteIndex(votes: seq<VoteRecord>, pollId: PollId): (r: Option<nat>)
    ensures r.Some? <==> HasVoted(votes, pollId)
    ensures r.Some? ==> r.value < |votes| && RefersTo(votes[r.value], pollId)
    ensures r.Some? ==> forall j :: 0 <= j < r.value ==> !RefersTo(votes[j], pollId)
    decreases |votes|
  {
    if votes == [] then None
    else if RefersTo(votes[0], pollId) then Some(0)
    else match FirstVoteIndex(votes[1..], pollId)
      case Some(k) => Some(k + 1)
      case None => None
  }

  /** `hasVoted || pendingVoteIdx !== undefined`. */
  predicate IsPollLocked(votes: seq<VoteRecord>, pending: map<PollId, int>, pollId: PollId) {
    HasVoted(votes, pollId) || pollId in pending
  }

  /** One option button: its class tokens (joined by spaces into `className`),
      its `disabled` attribute, and whether it shows the vote count. */
  datatype OptionView = OptionView(classes: seq<string>, disabled: bool, showsCount: bool)

  const VOTE_BTN := "vote-btn"
  const VOTING_ACTIVE := "voting-active"
  const DISABLED := "disabled"
  const SELECTED := "selected-option"

  /** The button for option `i` of `poll`. The pending option is marked
      `voting-active` and never `disabled`; every other option of a locked
      poll is `disabled`; the option recorded in the vote history is
      `selected-option` unless it is the pending one. Every button of a locked
      poll has the `disabled` attribute, and counts are shown only after
      voting in a poll that allows live results. */
  function ViewOption(poll: Poll, votes: seq<VoteRecord>, pending: map<PollId, int>, i: int): (v: OptionView)
    ensures |v.classes| >= 1 && v.classes[0] == VOTE_BTN
    ensures VOTING_ACTIVE in v.classes <==> poll.id in pending && pending[poll.id] == i
    ensures DISABLED in v.classes <==> IsPollLocked(votes, pending, poll.id) && !(poll.id in pending && pending[poll.id] == i)
    ensures SELECTED in v.classes <==>
      && !(poll.id in pending && pending[poll.id] == i)
      && (exists k :: 0 <= k < |votes| && RefersTo(votes[k], poll.id)
            && votes[k].optionIndex == i && (forall j :: 0 <= j < k ==> !RefersTo(votes[j], poll.id)))
    ensures v.disabled <==> IsPollLocked(votes, pending, poll.id)
    ensures v.showsCount <==> HasVoted(votes, poll.id) && poll.allowLiveResults
  {
    var hasVoted := HasVoted(votes, poll.id);
    var mapped := FirstVoteIndex(votes, poll.id);
    var locked := hasVoted || poll.id in pending;
    var pendingHere := poll.id in pending && pending[poll.id] == i;
    var votedHere := mapped.Some? && votes[mapped.value].optionIndex == i;
    var selected := pendingHere || votedHere;
    var classes := [VOTE_BTN]
      + (if pendingHere then [VOTING_ACTIVE] else [])
      + (if locked && !pendingHere then [DISABLED] else [])
      + (if selected && !pendingHere then [SELECTED] else []);
    FirstVoteIsUnique(votes, poll.id, mapped);
    OptionView(classes, locked, hasVoted && poll.allowLiveResults)
  }

  lemma FirstVoteIsUnique(votes: seq<VoteRecord>, pollId: PollId, mapped: Option<nat>)
    requires mapped == FirstVoteIndex(votes, pollId)
    ensures forall k ::
      (0 <= k < |votes| && RefersTo(votes[k], pollId) && (forall j :: 0 <= j < k ==> !RefersTo(votes[j], pollId)))
      ==> mapped == Some(k)
  {
  }

  /** While a vote on the poll is pending, the pending option is active and
      not class-disabled, every other option is class-disabled, and all the
      poll's buttons carry the `disabled` attribute. */
  lemma PendingPollView(poll: Poll, votes: seq<VoteRecord>, pending: map<PollId, int>, i: int)
    requires poll.id in pending
    ensures var v := ViewOption(poll, votes, pending, i);
      && v.disabled
      && (i == pending[poll.id] ==> VOTING_ACTIVE in v.classes && DISABLED !in v.classes)
      && (i != pending[poll.id] ==> DISABLED in v.classes && VOTING_ACTIVE !in v.classes)
  {
  }

  /** A poll neither voted nor pending offers every option as a plain, enabled button. */
  lemma OpenPollView(poll: Poll, votes: seq<VoteRecord>, pending: map<PollId, int>, i: int)
    requires !IsPollLocked(votes, pending, poll.id)
    ensures ViewOption(poll, votes, pending, i) == OptionView([VOTE_BTN], false, false)
  {
    var v := ViewOption(poll, votes, pending, i);
    assert v.classes == [VOTE_BTN] by {
      assert !HasVoted(votes, poll.id);
    }
  }

  /** The session fields a PUT /users/profile response carries; `None` is a
      field the response leaves out. Any field of the session may come back. */
  datatype ProfilePatch = ProfilePatch(
    id: Option<UserId>,
    name: Option<string>,
    email: Option<string>,
    role: Option<string>,
    token: Option<string>,
    rollNumber: Option<string>,
    department: Option<string>,
    profilePic: Option<string>)

  /** A response that carries only the three profile fields. */
  function ProfileFieldsOnly(rollNumber: Option<string>, department: Option<string>, profilePic: Option<string>): ProfilePatch {
    ProfilePatch(None, None, None, None, None, rollNumber, department, profilePic)
  }

  /** One property of the spread: the response's value if it has one, else the session's. */
  function Pick<T>(base: T, over: Option<T>): T {
    if over.Some? then over.value else base
  }

  /** The same for a field the session may lack. */
  function Override(base: Option<string>, over: Option<string>): Option<string> {
    if over.Some? then over else base
  }

  /** `{ ...user, ...res.data }`: every field the response carries wins, and
      every field it leaves out is the session's. */
  function Merge(u: User, patch: ProfilePatch): (m: User)
    ensures patch.id.Some? ==> m.id == patch.id.value
    ensures patch.id.None? ==> m.id == u.id
    ensures patch.name.Some? ==> m.name == patch.name.value
    ensures patch.name.None? ==> m.name == u.name
    ensures patch.email.Some? ==> m.email == patch.email.value
    ensures patch.email.None? ==> m.email == u.email
    ensures patch.role.Some? ==> m.role == patch.role.value
    ensures patch.role.None? ==> m.role == u.role
    ensures patch.token.Some? ==> m.token == patch.token
    ensures patch.token.None? ==> m.token == u.token
    ensures patch.rollNumber.Some? ==> m.rollNumber == patch.rollNumber
    ensures patch.rollNumber.None? ==> m.rollNumber == u.rollNumber
    ensures patch.department.Some? ==> m.department == patch.department
    ensures patch.department.None? ==> m.department == u.department
    ensures patch.profilePic.Some? ==> m.profilePic == patch.profilePic
    ensures patch.profilePic.None? ==> m.profilePic == u.profilePic
  {
    User(
      Pick(u.id, patch.id),
      Pick(u.name, patch.name),
      Pick(u.email, patch.email),
      Pick(u.role, patch.role),
      Override(u.token, patch.token),
      Override(u.rollNumber, patch.rollNumber),
      Override(u.department, patch.department),
      Override(u.profilePic, patch.profilePic))
  }

  /** A response carrying only profile fields keeps the session's identity,
      role and token; one that carries a role or a token replaces it. */
  lemma ProfileOnlyKeepsIdentity(u: User, patch: ProfilePatch)
    ensures patch == ProfileFieldsOnly(patch.rollNumber, patch.department, patch.profilePic) ==>
      var m := Merge(u, patch);
      m.id == u.id && m.name == u.name && m.email == u.email && m.role == u.role && m.token == u.token
    ensures patch.role.Some? ==> Merge(u, patch).role == patch.role.value
    ensures patch.token.Some? ==> Merge(u, patch).token == patch.token
  {
  }

  /** Merging the same response twice is merging it once. */
  lemma MergeIdempotent(u: User, patch: ProfilePatch)
    ensures Merge(Merge(u, patch), patch) == Merge(u, patch)
  {
  }

  /** The storage key the profile save writes to. */
  const PROFILE_KEY := "user"

  /** The storage after a profile save, as written: the merged record goes under "user". */
  function SaveProfileAsWritten(items: map<string, User>, u: User, patch: ProfilePatch): (after: map<string, User>)
    ensures after.Keys == items.Keys + {PROFILE_KEY}
    ensures after[PROFILE_KEY] == Merge(u, patch)
    ensures forall key :: key in items && key != PROFILE_KEY ==> after[key] == items[key]
  {
    items[PROFILE_KEY := Merge(u, patch)]
  }

  /** The reload that follows a save starts from 'currentUser', which the save
      did not touch: the session after the reload is the one before the save. */
  lemma ProfileSaveLostOnReload(items: map<string, User>, u: User, patch: ProfilePatch)
    ensures StoredSession(SaveProfileAsWritten(items, u, patch)) == StoredSession(items)
  {
    assert PROFILE_KEY != SESSION_KEY;
  }

  /** A concrete loss: a student without a roll number saves one, reloads,
      and the session still has none. */
  lemma ProfileSaveLostExample()
    ensures var u := User("1", "Ann", "a@x.edu", STUDENT, Some("t"), None, None, None);
      var patch := ProfileFieldsOnly(Some("R-17"), None, None);
      var reloaded := StoredSession(SaveProfileAsWritten(map[SESSION_KEY := u], u, patch));
      reloaded == Some(u) && reloaded != Some(Merge(u, patch))
  {
    var u := User("1", "Ann", "a@x.edu", STUDENT, Some("t"), None, None, None);
    var patch := ProfileFieldsOnly(Some("R-17"), None, None);
    ProfileSaveLostOnReload(map[SESSION_KEY := u], u, patch);
    assert Merge(u, patch).rollNumber == Some("R-17");
  }

  /** The save as intended: the merged record replaces the session under 'currentUser'. */
  function SaveProfileToSession(items: map<string, User>, u: User, patch: ProfilePatch): (after: map<string, User>)
    ensures after.Keys == items.Keys + {SESSION_KEY}
    ensures after[SESSION_KEY] == Merge(u, patch)
    ensures forall key :: key in items && key != SESSION_KEY ==> after[key] == items[key]
  {
    items[SESSION_KEY := Merge(u, patch)]
  }

  /** With the intended key, the reload picks up exactly the merged profile. */
  lemma CorrectedSaveSurvivesReload(items: map<string, User>, u: User, patch: ProfilePatch)
    ensures StoredSession(SaveProfileToSession(items, u, patch)) == Some(Merge(u, patch))
    ensures var s := StoredSession(SaveProfileToSession(items, u, patch)).value;
      && (patch.rollNumber.Some? ==> s.rollNumber == patch.rollNumber)
      && (patch.id.None? ==> s.id == u.id)
      && (patch.token.None? ==> s.token == u.token)
  {
  }

  /** `user.rollNumber || ""` and its siblings: the edit form seeded from the session. */
  function ProfileFormOf(u: User): (f: ProfileForm)
    ensures u.rollNumber.Some? ==> f.rollNumber == u.rollNumber.value
    ensures u.rollNumber.None? ==> f.rollNumber == ""
    ensures u.department.Some? ==> f.department == u.department.value
    ensures u.department.None? ==> f.department == ""
    ensures u.profilePic.Some? ==> f.profilePic == u.profilePic.value
    ensures u.profilePic.None? ==> f.profilePic == ""
  {
    ProfileForm(u.rollNumber.GetOr(""), u.department.GetOr(""), u.profilePic.GetOr(""))
  }

  /** What the two GETs of `fetchData` bring back; the dashboard's lists may be missing. */
  datatype StudentData = StudentData(polls: seq<Poll>, votes: Option<seq<VoteRecord>>, badges: Option<seq<Badge>>)

  /** The answer to POST /polls/{id}/vote. */
  datatype VoteReply = VoteAccepted(newBadge: Option<string>) | VoteRejected(message: Option<JsValue>)

  /** The answer to PUT /users/profile. */
  datatype ProfileReply = ProfileSaved(patch: ProfilePatch) | ProfileRejected(message: Option<JsValue>)

  const LOAD_FAILED := "Failed to load data."
  const VOTE_FALLBACK := "Error casting vote"
  const SAVE_FALLBACK := "Failed to save profile. Try again."
  const BADGE_PREFIX := "\U{1F389} Congratulations! You earned a new badge: "

  class StudentDashboard {
    const auth: AuthProvider
    var polls: seq<Poll>
    var votedPolls: seq<VoteRecord>
    var badges: seq<Badge>
    var loading: bool
    var error: string
    /** The pending-vote lock: poll id to the option being submitted. */
    var pendingVotes: map<PollId, int>
    /** The polls whose vote request has been issued and not yet answered. */
    ghost var inFlight: multiset<PollId>
    var showProfileMenu: bool
    var isEditingProfile: bool
    var editForm: ProfileForm
    var navigatedTo: Option<Route>
    var reloadRequested: bool
    /** Requests issued to the API, oldest first. */
    var sent: seq<Request>
    /** Messages shown with `alert`, oldest first. */
    var alerts: seq<JsValue>

    /** Every pending poll has exactly one vote request in flight, and no other poll has any. */
    ghost predicate Valid()
      reads this
    {
      inFlight == multiset(pendingVotes.Keys)
    }

    constructor (auth: AuthProvider)
      ensures Valid() && this.auth == auth
      ensures polls == [] && votedPolls == [] && badges == [] && loading && error == ""
      ensures pendingVotes == map[] && inFlight == multiset{}
      ensures !showProfileMenu && !isEditingProfile && editForm == ProfileForm("", "", "")
      ensures navigatedTo == None && !reloadRequested && sent == [] && alerts == []
    {
      this.auth := auth;
      polls, votedPolls, badges := [], [], [];
      loading, error := true, "";
      pendingVotes, inFlight := map[], multiset{};
      showProfileMenu, isEditingProfile := false, false;
      editForm := ProfileForm("", "", "");
      navigatedTo, reloadRequested := None, false;
      sent, alerts := [], [];
    }

    /** The page's data after `fetchData` has settled: on success the polls,
        the vote history and the badges are replaced (missing lists become
        empty) and the edit form is re-seeded from the session; on failure
        nothing is replaced and the error banner is set only if no polls are
        shown. Loading is over either way. */
    twostate predicate Fetched(fetched: Option<StudentData>)
      reads this, auth
    {
      && !loading
      && (fetched.Some? ==>
        && polls == fetched.value.polls
        && votedPolls == fetched.value.votes.GetOr([])
        && badges == fetched.value.badges.GetOr([])
        && editForm == (if auth.user.Some? then ProfileFormOf(auth.user.value) else old(editForm))
        && error == old(error))
      && (fetched.None? ==>
        && polls == old(polls) && votedPolls == old(votedPolls) && badges == old(badges)
        && editForm == old(editForm)
        && error == (if |old(polls)| == 0 then LOAD_FAILED else old(error)))
    }

    /** `fetchData`: the two GETs go out together and the page ends as `Fetched` says. */
    method FetchData(fetched: Option<StudentData>)
      modifies this`sent, this`polls, this`votedPolls, this`badges, this`editForm, this`error, this`loading
      ensures sent == old(sent) + [GetPolls, GetStudentDashboard]
      ensures Fetched(fetched)
    {
      sent := sent + [GetPolls, GetStudentDashboard];
      match fetched {
        case Some(data) =>
          polls := data.polls;
          votedPolls := data.votes.GetOr([]);
          badges := data.badges.GetOr([]);
          if auth.user.Some? {
            editForm := ProfileFormOf(auth.user.value);
          }
        case None =>
          if |polls| == 0 {
            error := LOAD_FAILED;
          }
      }
      loading := false;
    }

    /** The mount effect: without a session the page goes to "/" and fetches
        nothing; with any session, whatever its role, it fetches. */
    method Mount(fetched: Option<StudentData>)
      modifies this`sent, this`polls, this`votedPolls, this`badges, this`editForm, this`error, this`loading, this`navigatedTo
      ensures MountGuard(StudentPage, auth.user) == Redirect(LoginRoute) ==>
        && navigatedTo == Some(LoginRoute) && sent == old(sent) && loading == old(loading)
        && polls == old(polls) && votedPolls == old(votedPolls) && badges == old(badges)
        && editForm == old(editForm) && error == old(error)
      ensures MountGuard(StudentPage, auth.user) == Fetch ==>
        && navigatedTo == old(navigatedTo)
        && sent == old(sent) + [GetPolls, GetStudentDashboard]
        && Fetched(fetched)
    {
      if auth.user.None? {
        navigatedTo := Some(LoginRoute);
      } else {
        FetchData(fetched);
      }
    }

    /** The synchronous part of `handleVote`, up to the request: nothing
        happens for a poll already voted or already pending; otherwise the
        lock records the option and one vote request is issued. */
    method HandleVote(pollId: PollId, optionIndex: int) returns (issued: bool)
      requires Valid()
      modifies this`pendingVotes, this`inFlight, this`sent
      ensures Valid()
      ensures issued <==> !IsPollLocked(votedPolls, old(pendingVotes), pollId)
      ensures issued ==>
        && pendingVotes == old(pendingVotes)[pollId := optionIndex]
        && sent == old(sent) + [PostVote(pollId, optionIndex)]
        && inFlight == old(inFlight) + multiset{pollId}
      ensures !issued ==> pendingVotes == old(pendingVotes) && sent == old(sent) && inFlight == old(inFlight)
    {
      var hasVoted := HasVoted(votedPolls, pollId);
      if hasVoted || pollId in pendingVotes {
        return false;
      }
      pendingVotes := pendingVotes[pollId := optionIndex];
      sent := sent + [PostVote(pollId, optionIndex)];
      inFlight := inFlight + multiset{pollId};
      issued := true;
    }

    /** The rest of `handleVote`, when the vote request for `pollId` is
        answered: the answer is handled (`HandleVoteReply`), then the poll's
        lock entry, and only it, is removed. */
    method SettleVote(pollId: PollId, reply: VoteReply, refetch: Option<StudentData>)
      requires Valid() && pollId in inFlight
      modifies this`pendingVotes, this`inFlight, this`alerts,
        this`sent, this`polls, this`votedPolls, this`badges, this`editForm, this`error, this`loading
      ensures Valid()
      ensures pendingVotes == old(pendingVotes) - {pollId}
      ensures inFlight == old(inFlight) - multiset{pollId}
      ensures VoteReplyHandled(reply, refetch)
    {
      HandleVoteReply(reply, refetch);
      ReleaseLock(pendingVotes, pollId);
      pendingVotes := pendingVotes - {pollId};
      inFlight := inFlight - multiset{pollId};
    }

    /** What the answer to a vote leaves behind: on acceptance a new badge is
        announced and the page is re-fetched; on rejection the server's
        message (or the fallback) is alerted and no data changes. */
    twostate predicate VoteReplyHandled(reply: VoteReply, refetch: Option<StudentData>)
      reads this, auth
    {
      && (reply.VoteAccepted? ==>
        && sent == old(sent) + [GetPolls, GetStudentDashboard]
        && alerts == old(alerts) + (if reply.newBadge.Some? && reply.newBadge.value != ""
                                    then [JsString(BADGE_PREFIX + reply.newBadge.value)] else [])
        && Fetched(refetch))
      && (reply.VoteRejected? ==>
        && sent == old(sent)
        && alerts == old(alerts) + [OrFallback(reply.message, VOTE_FALLBACK)]
        && votedPolls == old(votedPolls) && polls == old(polls) && badges == old(badges)
        && editForm == old(editForm) && error == old(error) && loading == old(loading))
    }

    /** The `try`/`catch` of `handleVote` after the request. */
    method HandleVoteReply(reply: VoteReply, refetch: Option<StudentData>)
      modifies this`alerts, this`sent, this`polls, this`votedPolls, this`badges, this`editForm, this`error, this`loading
      ensures VoteReplyHandled(reply, refetch)
    {
      match reply {
        case VoteAccepted(newBadge) =>
          if newBadge.Some? && newBadge.value != "" {
            alerts := alerts + [JsString(BADGE_PREFIX + newBadge.value)];
          }
          FetchData(refetch);
        case VoteRejected(message) =>
          alerts := alerts + [OrFallback(message, VOTE_FALLBACK)];
      }
    }

    /** `handleLogout`: the session is cleared and the page goes to "/". */
    method HandleLogout()
      modifies auth, auth.storage, this`navigatedTo
      ensures auth.user == None && StoredSession(auth.storage.items) == None
      ensures auth.storage.items == old(auth.storage.items) - {SESSION_KEY}
      ensures navigatedTo == Some(LoginRoute)
      ensures auth.sent == old(auth.sent) && auth.loading == old(auth.loading)
    {
      auth.Logout();
      navigatedTo := Some(LoginRoute);
    }

    /** `handleSaveProfile`, with the storage key corrected: the edit form is
        sent; on success the session merged with the response replaces
        'currentUser' and a reload is requested; on failure the server's
        message (or the fallback) is alerted. The edit form and the menu close
        either way. The code as written stores under "user" instead
        (`SaveProfileAsWritten`). */
    method SaveProfile(reply: ProfileReply)
      requires auth.user.Some?
      modifies this`sent, this`alerts, this`reloadRequested, this`isEditingProfile, this`showProfileMenu, auth.storage
      ensures sent == old(sent) + [PutProfile(editForm)]
      ensures !isEditingProfile && !showProfileMenu
      ensures reply.ProfileSaved? ==>
        && auth.storage.items == SaveProfileToSession(old(auth.storage.items), auth.user.value, reply.patch)
        && reloadRequested && alerts == old(alerts)
      ensures reply.ProfileRejected? ==>
        && auth.storage.items == old(auth.storage.items)
        && reloadRequested == old(reloadRequested)
        && alerts == old(alerts) + [OrFallback(reply.message, SAVE_FALLBACK)]
    {
      sent := sent + [PutProfile(editForm)];
      match reply {
        case ProfileSaved(patch) =>
          var updated := Merge(auth.user.value, patch);
          auth.storage.SetItem(SESSION_KEY, updated);
          reloadRequested := true;
        case ProfileRejected(message) =>
          alerts := alerts + [OrFallback(message, SAVE_FALLBACK)];
      }
      isEditingProfile := false;
      showProfileMenu := false;
    }
  }

  /** A page load of /student: React runs a child's mount effect before its
      provider's, so the page's guard sees no user yet and goes to "/"
      without fetching; only then does the provider adopt the stored
      session. The session survives, but the dashboard is left. */
  method Reload(storage: BrowserStorage, fetched: Option<StudentData>) returns (auth: AuthProvider, page: StudentDashboard)
    ensures fresh(auth) && fresh(page) && page.auth == auth && auth.storage == storage
    ensures page.navigatedTo == Some(LoginRoute) && page.sent == [] && page.polls == []
    ensures auth.user == StoredSession(storage.items) && !auth.loading && auth.sent == []
  {
    auth := new AuthProvider(storage);
    page := new StudentDashboard(auth);
    page.Mount(fetched);
    auth.Mount();
  }

  /** The corrected profile save followed by the reload it requests: the
      reloaded session holds the merged profile, yet the reloaded page has
      navigated to "/". */
  method SaveThenReload(page: StudentDashboard, patch: ProfilePatch, fetched: Option<StudentData>)
    returns (auth: AuthProvider, reloaded: StudentDashboard)
    requires page.auth.user.Some?
    modifies page`sent, page`alerts, page`reloadRequested, page`isEditingProfile, page`showProfileMenu, page.auth.storage
    ensures page.reloadRequested
    ensures auth.user == Some(Merge(old(page.auth.user.value), patch))
    ensures reloaded.navigatedTo == Some(LoginRoute) && reloaded.sent == []
  {
    page.SaveProfile(ProfileSaved(patch));
    auth, reloaded := Reload(page.auth.storage, fetched);
  }

  /** Removing a pending poll from the lock removes one copy of it from the in-flight count. */
  lemma ReleaseLock(pending: map<PollId, int>, pollId: PollId)
    requires pollId in pending
    ensures multiset((pending - {pollId}).Keys) == multiset(pending.Keys) - multiset{pollId}
  {
    assert pending.Keys == (pending - {pollId}).Keys + {pollId};
  }

  /** A poll's lock admits at most one vote request in flight. */
  lemma AtMostOneInFlight(page: StudentDashboard, pollId: PollId)
    requires page.Valid()
    ensures page.inFlight[pollId] <= 1
    ensures page.inFlight[pollId] == 1 <==> pollId in page.pendingVotes
  {
  }

  /** Two clicks on the same poll before the first answer: one vote request. */
  method DoubleClick(page: StudentDashboard, pollId: PollId, first: int, second: int)
    returns (issuedFirst: bool, issuedSecond: bool)
    requires page.Valid()
    modifies page`pendingVotes, page`inFlight, page`sent
    ensures page.Valid() && !issuedSecond
    ensures |page.sent| <= |old(page.sent)| + 1
    ensures issuedFirst ==> pollId in page.pendingVotes && page.pendingVotes[pollId] == first && page.inFlight[pollId] == 1
  {
    issuedFirst := page.HandleVote(pollId, first);
    issuedSecond := page.HandleVote(pollId, second);
  }
}
