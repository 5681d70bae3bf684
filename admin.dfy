/**
  The Admin control panel: its guard and three-part fetch, the poll and user
  deletions gated by a confirmation dialog, the results modal, the live-poll
  count, and which rows of the user directory offer a delete control.
 */
module Admin {
  import opened Domain
  import opened Guards
  import opened Session
  import opened Polls
  import opened Results

  /** The body of GET /users/admin/stats. */
  datatype AdminStats = AdminStats(totalUsers: int, totalPolls: int, totalVotes: int)

  /** What the three GETs of `fetchData` bring back together. */
  datatype AdminData = AdminData(users: seq<User>, polls: seq<Poll>, stats: AdminStats)

  /** The answer to a DELETE request. */
  datatype DeleteReply = Deleted | DeleteFailed(message: Option<JsValue>)

  const INITIAL_STATS := AdminStats(0, 0, 0)
  const ADMIN_LOAD_FAILED := "Failed to load admin data"
  const DELETE_POLL_FALLBACK := "Error deleting poll"
  const DELETE_USER_FALLBACK := "Error deleting user"
  const ADMIN_RESULTS_FAILED := "Failed to fetch results. Ensure you are an Admin."

  const ACTIVE_LABEL := "\U{25CF} ACTIVE"
  const CLOSED_LABEL := "CLOSED"

  /** The user directory shows a delete button on a row exactly when its role is not Admin. */
  predicate ShowsDeleteControl(u: User) {
    u.role != ADMIN
  }

  /** The ids the directory's delete buttons can pass to `handleDeleteUser`, in row order. */
  function DeletableIds(users: seq<User>): (ids: seq<UserId>)
    ensures |ids| <= |users|
    ensures forall id :: id in ids <==> exists k :: 0 <= k < |users| && users[k].id == id && ShowsDeleteControl(users[k])
    decreases |users|
  {
    if users == [] then []
    else
      var rest := DeletableIds(users[1..]);
      assert forall k :: 1 <= k < |users| ==> users[k] == users[1..][k - 1];
      (if ShowsDeleteControl(users[0]) then [users[0].id] else []) + rest
  }

  /** An id reachable through a delete button never belongs to an Admin row,
      unless a non-Admin row carries the same id. */
  lemma NoAdminOnlyIdDeletable(users: seq<User>, id: UserId)
    requires forall k :: 0 <= k < |users| && users[k].id == id ==> users[k].role == ADMIN
    ensures id !in DeletableIds(users)
  {
  }

  /** The badge on a poll card: `new Date() < new Date(poll.endTime)` decides
      between '● ACTIVE' and 'CLOSED'. */
  function CardLabel(p: Poll, now: int): (shown: string)
    ensures shown == ACTIVE_LABEL <==> IsActive(p, now)
    ensures shown == CLOSED_LABEL <==> !IsActive(p, now)
  {
    if IsActive(p, now) then ACTIVE_LABEL else CLOSED_LABEL
  }

  /** How many poll cards carry the '● ACTIVE' badge. */
  function ActiveCards(polls: seq<Poll>, now: int): nat
    decreases |polls|
  {
    if polls == [] then 0
    else (if CardLabel(polls[0], now) == ACTIVE_LABEL then 1 else 0) + ActiveCards(polls[1..], now)
  }

  /** The "Live Polls Online" card counts exactly the cards badged active;
      a card whose end time did not parse is badged 'CLOSED' and not counted live. */
  lemma {:induction false} LiveCountMatchesBadges(polls: seq<Poll>, now: int)
    ensures |ActivePolls(polls, now)| == ActiveCards(polls, now)
    decreases |polls|
  {
    if polls != [] {
      LiveCountMatchesBadges(polls[1..], now);
      var shown := CardLabel(polls[0], now);
      assert shown == ACTIVE_LABEL <==> IsActive(polls[0], now);
    }
  }

  /** An unparsable end time is shown as 'CLOSED' but is in neither filter. */
  lemma InvalidEndTimeShownClosed(p: Poll, now: int)
    requires p.endTime == InvalidDate
    ensures CardLabel(p, now) == CLOSED_LABEL
    ensures ActivePolls([p], now) == [] && ClosedPolls([p], now) == []
  {
  }

  class AdminDashboard {
    const auth: AuthProvider
    const results: ResultsModal
    var users: seq<User>
    var polls: seq<Poll>
    var stats: AdminStats
    var loading: bool
    var error: string
    var navigatedTo: Option<Route>
    /** Requests issued to the API, oldest first. */
    var sent: seq<Request>
    /** Messages shown with `alert`, oldest first. */
    var alerts: seq<JsValue>

    constructor (auth: AuthProvider)
      ensures this.auth == auth && fresh(results)
      ensures users == [] && polls == [] && stats == INITIAL_STATS && loading && error == ""
      ensures navigatedTo == None && sent == [] && alerts == []
      ensures !results.show && !results.loading && results.data == None
    {
      this.auth := auth;
      results := new ResultsModal();
      users, polls, stats := [], [], INITIAL_STATS;
      loading, error := true, "";
      navigatedTo := None;
      sent, alerts := [], [];
    }

    /** The page's data after `fetchData` has settled: all three lists are
        replaced when all GETs succeed; nothing is replaced and the error
        banner is set when any fails. Success does not clear an earlier
        error. Loading is over either way. */
    twostate predicate Fetched(fetched: Option<AdminData>)
      reads this
    {
      && !loading
      && (fetched.Some? ==>
        && users == fetched.value.users && polls == fetched.value.polls && stats == fetched.value.stats
        && error == old(error))
      && (fetched.None? ==>
        && users == old(users) && polls == old(polls) && stats == old(stats)
        && error == ADMIN_LOAD_FAILED)
    }

    /** `fetchData`: the three GETs go out together and the page ends as `Fetched` says. */
    method FetchData(fetched: Option<AdminData>)
      modifies this`loading, this`sent, this`users, this`polls, this`stats, this`error
      ensures sent == old(sent) + [GetUsers, GetPolls, GetAdminStats]
      ensures Fetched(fetched)
    {
      loading := true;
      sent := sent + [GetUsers, GetPolls, GetAdminStats];
      if fetched.Some? {
        users := fetched.value.users;
        polls := fetched.value.polls;
        stats := fetched.value.stats;
      } else {
        error := ADMIN_LOAD_FAILED;
      }
      loading := false;
    }

    /** The mount effect: anyone but a signed-in Admin is sent to "/" and
        nothing is fetched; an Admin's page fetches. */
    method Mount(fetched: Option<AdminData>)
      modifies this`loading, this`sent, this`users, this`polls, this`stats, this`error, this`navigatedTo
      ensures MountGuard(AdminPage, auth.user) == Redirect(LoginRoute) ==>
        && navigatedTo == Some(LoginRoute)
        && sent == old(sent) && loading == old(loading)
        && users == old(users) && polls == old(polls) && stats == old(stats) && error == old(error)
      ensures MountGuard(AdminPage, auth.user) == Fetch ==>
        && navigatedTo == old(navigatedTo)
        && sent == old(sent) + [GetUsers, GetPolls, GetAdminStats]
        && Fetched(fetched)
    {
      if auth.user.None? || auth.user.value.role != ADMIN {
        navigatedTo := Some(LoginRoute);
      } else {
        FetchData(fetched);
      }
    }

    /** `handleDeletePoll(id)`: nothing happens unless the dialog is
        confirmed; then the DELETE is sent, and a success re-fetches while a
        failure alerts the server's message (or the fallback). */
    method HandleDeletePoll(id: PollId, confirmed: bool, reply: DeleteReply, refetch: Option<AdminData>)
      modifies this`loading, this`sent, this`users, this`polls, this`stats, this`error, this`alerts
      ensures !confirmed ==>
        && sent == old(sent) && alerts == old(alerts) && loading == old(loading)
        && users == old(users) && polls == old(polls) && stats == old(stats) && error == old(error)
      ensures confirmed && reply == Deleted ==>
        && sent == old(sent) + [DeletePoll(id), GetUsers, GetPolls, GetAdminStats]
        && alerts == old(alerts)
        && Fetched(refetch)
      ensures confirmed && reply.DeleteFailed? ==>
        && sent == old(sent) + [DeletePoll(id)]
        && alerts == old(alerts) + [OrFallback(reply.message, DELETE_POLL_FALLBACK)] && loading == old(loading)
        && users == old(users) && polls == old(polls) && stats == old(stats) && error == old(error)
    {
      if !confirmed {
        return;
      }
      sent := sent + [DeletePoll(id)];
      match reply {
        case Deleted =>
          FetchData(refetch);
        case DeleteFailed(message) =>
          alerts := alerts + [OrFallback(message, DELETE_POLL_FALLBACK)];
      }
    }

    /** `handleDeleteUser(id)`: the same confirmation, request and outcome as
        a poll deletion, for DELETE /users/{id}. The handler itself does not
        look at the role; only the directory's rendering withholds the button. */
    method HandleDeleteUser(id: UserId, confirmed: bool, reply: DeleteReply, refetch: Option<AdminData>)
      modifies this`loading, this`sent, this`users, this`polls, this`stats, this`error, this`alerts
      ensures !confirmed ==>
        && sent == old(sent) && alerts == old(alerts) && loading == old(loading)
        && users == old(users) && polls == old(polls) && stats == old(stats) && error == old(error)
      ensures confirmed && reply == Deleted ==>
        && sent == old(sent) + [DeleteUser(id), GetUsers, GetPolls, GetAdminStats]
        && alerts == old(alerts)
        && Fetched(refetch)
      ensures confirmed && reply.DeleteFailed? ==>
        && sent == old(sent) + [DeleteUser(id)]
        && alerts == old(alerts) + [OrFallback(reply.message, DELETE_USER_FALLBACK)] && loading == old(loading)
        && users == old(users) && polls == old(polls) && stats == old(stats) && error == old(error)
    {
      if !confirmed {
        return;
      }
      sent := sent + [DeleteUser(id)];
      match reply {
        case Deleted =>
          FetchData(refetch);
        case DeleteFailed(message) =>
          alerts := alerts + [OrFallback(message, DELETE_USER_FALLBACK)];
      }
    }

    /** `viewResults(pollId)`: opens the modal loading, asks for the results,
        then shows them or alerts and closes; loading is over either way. */
    method ViewResults(pollId: PollId, reply: Option<PollResults>)
      modifies this`sent, this`alerts, results
      ensures sent == old(sent) + [GetResults(pollId)]
      ensures !results.loading && results.data == reply && results.show == reply.Some?
      ensures alerts == old(alerts) + (if reply.Some? then [] else [JsString(ADMIN_RESULTS_FAILED)])
    {
      results.Open();
      sent := sent + [GetResults(pollId)];
      if reply.None? {
        alerts := alerts + [JsString(ADMIN_RESULTS_FAILED)];
      }
      results.Settle(reply);
    }

    /** `handleLogout`: the session is cleared and the page goes to "/". */
    method HandleLogout()
      modifies auth, auth.storage, this`navigatedTo
      ensures auth.user == None && StoredSession(auth.storage.items) == None
      ensures auth.storage.items == old(auth.storage.items) - {SESSION_KEY}
      ensures navigatedTo == Some(LoginRoute)
      ensures auth.sent == old(auth.sent) && auth.loading == old(auth.loading)
    {
      auth.Logout();
      navigatedTo := Some(LoginRoute);
    }
  }
}
