/**
  The Staff dashboard: the poll-authoring form (its option list can grow,
  be edited and shrink, but never below two entries), the validity test
  that gates poll creation, and the page's fetch, guard and results modal.
 */
module Staff {
  import opened Domain
  import opened Text
  import opened Guards
  import opened Results
  import opened Session

  /** The form as first shown and as `resetForm` leaves it. */
  const BLANK_DRAFT := PollDraft("", "", "Both", "", "", false, true, ["", ""])

  /** One user action on the authoring form. */
  datatype DraftEdit =
    | SetTitle(title: string)
    | SetDescription(description: string)
    | SetVisibility(visibility: string)
    | SetStartTime(startTime: string)
    | SetEndTime(endTime: string)
    | SetAnonymous(anonymous: bool)
    | SetLiveResults(allowLiveResults: bool)
    | AddOption
    | UpdateOption(i: int, value: string)
    | DeleteOption(index: int)

  /** Edits the form can offer: an option row is only ever edited through its own input. */
  predicate Enabled(d: PollDraft, e: DraftEdit) {
    e.UpdateOption? ==> 0 <= e.i < |d.options|
  }

  /** `options.filter((_, i) => i !== index)`: keeps every element whose
      position differs from `index`. */
  function KeepOthers<T>(s: seq<T>, index: int): seq<T>
    decreases |s|
  {
    if s == [] then [] else (if index == 0 then [] else [s[0]]) + KeepOthers(s[1..], index - 1)
  }

  /** The filter removes exactly the element at `index`, keeping the others in
      order, and removes nothing when `index` is not a position of `s`. */
  lemma KeepOthersRemovesOne<T>(s: seq<T>, index: int)
    ensures 0 <= index < |s| ==> KeepOthers(s, index) == s[..index] + s[index + 1..]
    ensures !(0 <= index < |s|) ==> KeepOthers(s, index) == s
  {
    if 0 <= index < |s| {
      KeepOthersInRange(s, index);
    } else {
      KeepOthersOutOfRange(s, index);
    }
  }

  lemma {:induction false} KeepOthersOutOfRange<T>(s: seq<T>, index: int)
    requires !(0 <= index < |s|)
    ensures KeepOthers(s, index) == s
    decreases |s|
  {
    if s != [] {
      KeepOthersOutOfRange(s[1..], index - 1);
      assert [s[0]] + s[1..] == s;
    }
  }

  lemma {:induction false} KeepOthersInRange<T>(s: seq<T>, index: int)
    requires 0 <= index < |s|
    ensures KeepOthers(s, index) == s[..index] + s[index + 1..]
    decreases |s|
  {
    var tail := s[1..];
    if index == 0 {
      KeepOthersOutOfRange(tail, -1);
    } else {
      KeepOthersInRange(tail, index - 1);
      assert s[..index] == [s[0]] + tail[..index - 1];
      assert s[index + 1..] == tail[index..];
    }
  }

  /** The form after one edit: the setters replace one field; add-option
      appends a blank; update-option overwrites one entry of a copy;
      delete-option refuses when two or fewer options are left. */
  function ApplyEdit(d: PollDraft, e: DraftEdit): PollDraft
    requires Enabled(d, e)
  {
    match e
    case SetTitle(t) => d.(title := t)
    case SetDescription(t) => d.(description := t)
    case SetVisibility(v) => d.(visibility := v)
    case SetStartTime(t) => d.(startTime := t)
    case SetEndTime(t) => d.(endTime := t)
    case SetAnonymous(b) => d.(anonymous := b)
    case SetLiveResults(b) => d.(allowLiveResults := b)
    case AddOption => d.(options := d.options + [""])
    case UpdateOption(i, v) => d.(options := d.options[i := v])
    case DeleteOption(index) =>
      if |d.options| <= 2 then d else d.(options := KeepOthers(d.options, index))
  }

  /** `deleteOption`: with two or fewer options the form is unchanged; with
      more, exactly the option at `index` goes, the rest keep their order and
      every other field is untouched. */
  lemma DeleteOptionEffect(d: PollDraft, index: int)
    ensures |d.options| <= 2 ==> ApplyEdit(d, DeleteOption(index)) == d
    ensures |d.options| > 2 && 0 <= index < |d.options| ==>
      ApplyEdit(d, DeleteOption(index)) == d.(options := d.options[..index] + d.options[index + 1..])
    ensures |d.options| > 2 && !(0 <= index < |d.options|) ==> ApplyEdit(d, DeleteOption(index)) == d
  {
    KeepOthersRemovesOne(d.options, index);
  }

  /** `updateOption(i, val)`: entry `i` becomes `val`, the length and every
      other entry and field stay. */
  lemma UpdateOptionEffect(d: PollDraft, i: int, value: string)
    requires 0 <= i < |d.options|
    ensures var d' := ApplyEdit(d, UpdateOption(i, value));
      && |d'.options| == |d.options|
      && d'.options[i] == value
      && (forall k :: 0 <= k < |d.options| && k != i ==> d'.options[k] == d.options[k])
      && d' == d.(options := d'.options)
  {
  }

  /** A sequence of edits the form can offer, each enabled where it is applied. */
  predicate ValidEdits(d: PollDraft, edits: seq<DraftEdit>)
    decreases |edits|
  {
    edits == [] || (Enabled(d, edits[0]) && ValidEdits(ApplyEdit(d, edits[0]), edits[1..]))
  }

  function Replay(d: PollDraft, edits: seq<DraftEdit>): PollDraft
    requires ValidEdits(d, edits)
    decreases |edits|
  {
    if edits == [] then d else Replay(ApplyEdit(d, edits[0]), edits[1..])
  }

  /** Length of the option list after one edit. */
  lemma {:induction false} OptionCountAfterEdit(d: PollDraft, e: DraftEdit)
    requires Enabled(d, e)
    ensures e.AddOption? ==> |ApplyEdit(d, e).options| == |d.options| + 1
    ensures e.DeleteOption? ==> |ApplyEdit(d, e).options| >= |d.options| - 1
    ensures e.DeleteOption? && |d.options| <= 2 ==> |ApplyEdit(d, e).options| == |d.options|
    ensures !e.AddOption? && !e.DeleteOption? ==> |ApplyEdit(d, e).options| == |d.options|
  {
    if e.DeleteOption? {
      KeepOthersRemovesOne(d.options, e.index);
    }
  }

  /** From the blank form (or any form with at least two options), no
      sequence of edits leaves fewer than two options. */
  lemma {:induction false} EditsKeepTwoOptions(d: PollDraft, edits: seq<DraftEdit>)
    requires |d.options| >= 2 && ValidEdits(d, edits)
    ensures |Replay(d, edits).options| >= 2
    decreases |edits|
  {
    if edits != [] {
      OptionCountAfterEdit(d, edits[0]);
      EditsKeepTwoOptions(ApplyEdit(d, edits[0]), edits[1..]);
    }
  }

  /** `options.some(o => !o.trim())`. */
  function AnyBlank(options: seq<string>): bool
    decreases |options|
  {
    if options == [] then false
    else Trim(options[0]) == "" || AnyBlank(options[1..])
  }

  /** The `some` holds exactly when some option is nothing but whitespace. */
  lemma {:induction false} AnyBlankMeaning(options: seq<string>)
    ensures AnyBlank(options) <==> exists k :: 0 <= k < |options| && AllWhitespace(options[k])
    decreases |options|
  {
    if options != [] {
      AnyBlankMeaning(options[1..]);
      assert forall k :: 1 <= k < |options| ==> options[k] == options[1..][k - 1];
    }
  }

  /** The guard at the top of `createPoll`. */
  function CanSubmit(d: PollDraft): bool {
    !(d.title == "" || AnyBlank(d.options) || d.startTime == "" || d.endTime == "")
  }

  /** A form passes the guard exactly when its title, start time and end time
      are non-empty strings and no option is empty after trimming. The title
      is not trimmed, and the number of options is not checked here. */
  lemma CanSubmitMeaning(d: PollDraft)
    ensures CanSubmit(d) <==>
      && d.title != ""
      && d.startTime != ""
      && d.endTime != ""
      && forall k :: 0 <= k < |d.options| ==> !AllWhitespace(d.options[k])
  {
    AnyBlankMeaning(d.options);
  }

  /** A title of spaces passes the check; a blank option does not. */
  lemma WhitespaceTitlePasses()
    ensures CanSubmit(PollDraft(" ", "", "Both", "s", "e", false, true, ["a", "b"]))
    ensures !CanSubmit(PollDraft("t", "", "Both", "s", "e", false, true, ["a", " "]))
  {
    var ok := PollDraft(" ", "", "Both", "s", "e", false, true, ["a", "b"]);
    CanSubmitMeaning(ok);
    assert ok.options[0][0] == 'a' && ok.options[1][0] == 'b';
    var blank := PollDraft("t", "", "Both", "s", "e", false, true, ["a", " "]);
    CanSubmitMeaning(blank);
    assert AllWhitespace(blank.options[1]);
  }

  /** The blank form cannot be submitted. */
  lemma BlankDraftRejected()
    ensures !CanSubmit(BLANK_DRAFT)
    ensures |BLANK_DRAFT.options| == 2
  {
  }

  const FILL_ALL_FIELDS := "Please fill all required fields and ensure no empty options"
  const TWO_OPTIONS_NEEDED := "A poll must have at least 2 options"
  const CREATE_FALLBACK := "Failed to create poll"
  const FETCH_POLLS_FAILED := "Failed to fetch polls"
  const STAFF_RESULTS_FAILED := "Failed to fetch results. Ensure you are an Admin or Staff."

  /** The answer to POST /polls. */
  datatype PostReply = Created | PostFailed(message: Option<JsValue>)

  class StaffDashboard {
    const auth: AuthProvider
    const results: ResultsModal
    var newPoll: PollDraft
    var showModal: bool
    var polls: seq<Poll>
    var loading: bool
    var error: string
    var navigatedTo: Option<Route>
    /** Requests issued to the API, oldest first. */
    var sent: seq<Request>
    /** Messages shown with `alert`, oldest first. */
    var alerts: seq<JsValue>

    /** The form never holds fewer than two options. */
    ghost predicate Valid()
      reads this
    {
      |newPoll.options| >= 2
    }

    constructor (auth: AuthProvider)
      ensures Valid() && this.auth == auth && fresh(results)
      ensures newPoll == BLANK_DRAFT && !showModal && polls == [] && loading && error == ""
      ensures navigatedTo == None && sent == [] && alerts == []
      ensures !results.show && !results.loading && results.data == None
    {
      this.auth := auth;
      results := new ResultsModal();
      newPoll := BLANK_DRAFT;
      showModal := false;
      polls := [];
      loading := true;
      error := "";
      navigatedTo := None;
      sent := [];
      alerts := [];
    }

    /** `fetchPolls`: one GET /polls; the list on success, the error banner on
        failure (the old list stays); loading is over either way. */
    method FetchPolls(fetched: Option<seq<Poll>>)
      modifies this`loading, this`sent, this`polls, this`error
      ensures sent == old(sent) + [GetPolls]
      ensures !loading
      ensures polls == (if fetched.Some? then fetched.value else old(polls))
      ensures error == (if fetched.Some? then old(error) else FETCH_POLLS_FAILED)
    {
      loading := true;
      sent := sent + [GetPolls];
      if fetched.Some? {
        polls := fetched.value;
      } else {
        error := FETCH_POLLS_FAILED;
      }
      loading := false;
    }

    /** The mount effect: anyone but a Staff or Admin user is sent to "/"
        and nothing is fetched; otherwise the polls are fetched. */
    method Mount(fetched: Option<seq<Poll>>)
      modifies this`loading, this`sent, this`polls, this`error, this`navigatedTo
      ensures MountGuard(StaffPage, auth.user) == Redirect(LoginRoute) ==>
        && navigatedTo == Some(LoginRoute)
        && sent == old(sent) && polls == old(polls) && loading == old(loading) && error == old(error)
      ensures MountGuard(StaffPage, auth.user) == Fetch ==>
        && navigatedTo == old(navigatedTo)
        && sent == old(sent) + [GetPolls] && !loading
        && polls == (if fetched.Some? then fetched.value else old(polls))
        && error == (if fetched.Some? then old(error) else FETCH_POLLS_FAILED)
    {
      if auth.user.None? || (auth.user.value.role != STAFF && auth.user.value.role != ADMIN) {
        navigatedTo := Some(LoginRoute);
      } else {
        FetchPolls(fetched);
      }
    }

    /** `handleLogout`: the session is cleared and the page goes to "/". */
    method HandleLogout()
      modifies auth, auth.storage, this`navigatedTo
      ensures auth.user == None && StoredSession(auth.storage.items) == None
      ensures auth.storage.items == old(auth.storage.items) - {SESSION_KEY}
      ensures navigatedTo == Some(LoginRoute)
      ensures auth.sent == old(auth.sent) && auth.loading == old(auth.loading)
    {
      auth.Logout();
      navigatedTo := Some(LoginRoute);
    }

    /** The "+ Create New Poll" button. */
    method OpenForm()
      modifies this`showModal
      ensures showModal
    {
      showModal := true;
    }

    /** The form's text, select and checkbox inputs. */
    method EditField(e: DraftEdit)
      requires Valid()
      requires !e.AddOption? && !e.UpdateOption? && !e.DeleteOption?
      modifies this`newPoll
      ensures Valid()
      ensures newPoll == ApplyEdit(old(newPoll), e)
      ensures newPoll.options == old(newPoll.options)
    {
      newPoll := ApplyEdit(newPoll, e);
    }

    /** "+ Add Another Option". */
    method AddOption()
      requires Valid()
      modifies this`newPoll
      ensures Valid()
      ensures newPoll == old(newPoll).(options := old(newPoll.options) + [""])
      ensures newPoll == ApplyEdit(old(newPoll), DraftEdit.AddOption)
    {
      newPoll := newPoll.(options := newPoll.options + [""]);
    }

    /** `updateOption(i, val)`: writes `val` into a copy of the option list. */
    method UpdateOption(i: nat, value: string)
      requires Valid() && i < |newPoll.options|
      modifies this`newPoll
      ensures Valid()
      ensures newPoll == ApplyEdit(old(newPoll), DraftEdit.UpdateOption(i, value))
      ensures |newPoll.options| == |old(newPoll.options)| && newPoll.options[i] == value
      ensures forall k :: 0 <= k < |newPoll.options| && k != i ==> newPoll.options[k] == old(newPoll.options[k])
    {
      var updated := newPoll.options;
      updated := updated[i := value];
      newPoll := newPoll.(options := updated);
    }

    /** `deleteOption(index)`: refused with an alert when two or fewer options
        are left; otherwise the option at `index` is filtered out. */
    method DeleteOption(index: int) returns (refused: bool)
      requires Valid()
      modifies this`newPoll, this`alerts
      ensures Valid()
      ensures refused <==> |old(newPoll.options)| <= 2
      ensures newPoll == ApplyEdit(old(newPoll), DraftEdit.DeleteOption(index))
      ensures refused ==> newPoll == old(newPoll) && alerts == old(alerts) + [JsString(TWO_OPTIONS_NEEDED)]
      ensures !refused ==> alerts == old(alerts)
      ensures !refused && 0 <= index < |old(newPoll.options)| ==>
        newPoll == old(newPoll).(options := old(newPoll.options)[..index] + old(newPoll.options)[index + 1..])
    {
      DeleteOptionEffect(newPoll, index);
      OptionCountAfterEdit(newPoll, DraftEdit.DeleteOption(index));
      if |newPoll.options| <= 2 {
        alerts := alerts + [JsString(TWO_OPTIONS_NEEDED)];
        return true;
      }
      var updated := KeepOthers(newPoll.options, index);
      newPoll := newPoll.(options := updated);
      refused := false;
    }

    /** `resetForm`. */
    method ResetForm()
      modifies this`newPoll
      ensures Valid() && newPoll == BLANK_DRAFT
    {
      newPoll := BLANK_DRAFT;
    }

    /** `createPoll`: an incomplete form raises an alert and sends nothing;
        a complete one is submitted. */
    method CreatePoll(reply: PostReply, refetch: Option<seq<Poll>>)
      requires Valid()
      modifies this`newPoll, this`showModal, this`alerts, this`loading, this`sent, this`polls, this`error
      ensures Valid()
      ensures !CanSubmit(old(newPoll)) ==>
        && sent == old(sent)
        && alerts == old(alerts) + [JsString(FILL_ALL_FIELDS)]
        && newPoll == old(newPoll) && showModal == old(showModal)
        && polls == old(polls) && loading == old(loading) && error == old(error)
      ensures CanSubmit(old(newPoll)) ==> Submitted(reply, refetch)
    {
      if !CanSubmit(newPoll) {
        alerts := alerts + [JsString(FILL_ALL_FIELDS)];
        return;
      }
      Submit(reply, refetch);
    }

    /** What a submission leaves behind: on success the form is closed and
        reset and the list re-fetched; on failure the message or fallback is
        alerted and the form stays. */
    twostate predicate Submitted(reply: PostReply, refetch: Option<seq<Poll>>)
      reads this
    {
      && (reply == Created ==>
        && sent == old(sent) + [PostPoll(old(newPoll)), GetPolls]
        && alerts == old(alerts)
        && !showModal && newPoll == BLANK_DRAFT && !loading
        && polls == (if refetch.Some? then refetch.value else old(polls))
        && error == (if refetch.Some? then old(error) else FETCH_POLLS_FAILED))
      && (reply.PostFailed? ==>
        && sent == old(sent) + [PostPoll(old(newPoll))]
        && alerts == old(alerts) + [OrFallback(reply.message, CREATE_FALLBACK)]
        && newPoll == old(newPoll) && showModal == old(showModal)
        && polls == old(polls) && loading == old(loading) && error == old(error))
    }

    /** The request part of `createPoll`, after the guard has passed. */
    method Submit(reply: PostReply, refetch: Option<seq<Poll>>)
      requires Valid()
      modifies this`newPoll, this`showModal, this`alerts, this`loading, this`sent, this`polls, this`error
      ensures Valid() && Submitted(reply, refetch)
    {
      sent := sent + [PostPoll(newPoll)];
      match reply {
        case Created =>
          showModal := false;
          ResetForm();
          FetchPolls(refetch);
        case PostFailed(message) =>
          alerts := alerts + [OrFallback(message, CREATE_FALLBACK)];
      }
    }

    /** `viewResults(pollId)`: opens the modal loading, asks for the results,
        then shows them or alerts and closes; loading is over either way. */
    method ViewResults(pollId: PollId, reply: Option<PollResults>)
      modifies this`sent, this`alerts, results
      ensures sent == old(sent) + [GetResults(pollId)]
      ensures !results.loading && results.data == reply && results.show == reply.Some?
      ensures alerts == old(alerts) + (if reply.Some? then [] else [JsString(STAFF_RESULTS_FAILED)])
    {
      results.Open();
      sent := sent + [GetResults(pollId)];
      if reply.None? {
        alerts := alerts + [JsString(STAFF_RESULTS_FAILED)];
      }
      results.Settle(reply);
    }
  }
}
