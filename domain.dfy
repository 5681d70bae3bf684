/**
  The records the dashboards exchange with the polling API, the requests
  they issue, and the JavaScript value conventions they rely on
  (truthiness, `a || b` fallbacks, `Date` comparison).
 */
module Domain {

  datatype Option<T> = None | Some(value: T) {
    function GetOr(default: T): T {
      if Some? then value else default
    }
  }

  type PollId = string
  type UserId = string

  /** The role strings the server puts in a session record. */
  const ADMIN := "Admin"
  const STAFF := "Staff"
  const STUDENT := "Student"

  /** A session record as returned by /auth/login and /auth/register and kept
      under the storage key 'currentUser'. Absent optional fields are `None`. */
  datatype User = User(
    id: UserId,
    name: string,
    email: string,
    role: string,
    token: Option<string>,
    rollNumber: Option<string>,
    department: Option<string>,
    profilePic: Option<string>)

  /** The value of a JavaScript `Date`: milliseconds, or NaN when the string did not parse. */
  datatype Instant = At(ms: int) | InvalidDate

  /** `a < b` on two dates: false whenever either side is NaN. */
  predicate Before(a: Instant, b: Instant) {
    a.At? && b.At? && a.ms < b.ms
  }

  /** `a >= b` on two dates: false whenever either side is NaN. */
  predicate AtOrAfter(a: Instant, b: Instant) {
    a.At? && b.At? && a.ms >= b.ms
  }

  datatype PollOption = PollOption(optionText: string, voteCount: int)

  /** A poll as listed by GET /polls. */
  datatype Poll = Poll(
    id: PollId,
    title: string,
    description: string,
    visibility: string,
    endTime: Instant,
    anonymous: bool,
    allowLiveResults: bool,
    options: seq<PollOption>)

  /** The Staff poll-authoring form, posted as-is to POST /polls. */
  datatype PollDraft = PollDraft(
    title: string,
    description: string,
    visibility: string,
    startTime: string,
    endTime: string,
    anonymous: bool,
    allowLiveResults: bool,
    options: seq<string>)

  /** The Student profile form, sent to PUT /users/profile. */
  datatype ProfileForm = ProfileForm(rollNumber: string, department: string, profilePic: string)

  /** Every request a page can issue. */
  datatype Request =
    | PostLogin(email: string, password: string)
    | PostRegister(fields: map<string, string>)
    | GetPolls
    | PostPoll(draft: PollDraft)
    | DeletePoll(pollId: PollId)
    | PostVote(votePoll: PollId, optionIndex: int)
    | GetResults(resultsPoll: PollId)
    | GetUsers
    | DeleteUser(userId: UserId)
    | GetAdminStats
    | GetStudentDashboard
    | PutProfile(form: ProfileForm)

  /** A JavaScript value as far as the pages inspect it: a string, or anything
      else together with its truthiness. */
  datatype JsValue = JsString(s: string) | JsOther(truthy: bool)

  predicate Truthy(v: JsValue) {
    match v
    case JsString(s) => s != ""
    case JsOther(t) => t
  }

  /** `error.response?.data?.message || fallback`: the server's message when it
      is present and truthy, the fallback string otherwise. */
  function OrFallback(message: Option<JsValue>, fallback: string): (v: JsValue)
    requires fallback != ""
    ensures Truthy(v)
    ensures message.Some? && Truthy(message.value) ==> v == message.value
    ensures !(message.Some? && Truthy(message.value)) ==> v == JsString(fallback)
  {
    if message.Some? && Truthy(message.value) then message.value else JsString(fallback)
  }
}
