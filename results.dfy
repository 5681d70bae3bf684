/**
  The results modal that the Admin and Staff dashboards open from a poll
  card: `showResultsModal`, `resultsLoading` and `pollResults`.
 */
module Results {
  import opened Domain

  datatype OptionTally = OptionTally(optionText: string, voteCount: int, voters: Option<seq<string>>)

  /** The body of GET /polls/{id}/results. */
  datatype PollResults = PollResults(pollTitle: string, totalVotes: int, anonymous: bool, results: seq<OptionTally>)

  class ResultsModal {
    var show: bool
    var loading: bool
    var data: Option<PollResults>

    constructor ()
      ensures !show && !loading && data == None
    {
      show, loading, data := false, false, None;
    }

    /** The synchronous start of `viewResults`: the modal opens, loading, with no results. */
    method Open()
      modifies this
      ensures show && loading && data == None
    {
      show := true;
      loading := true;
      data := None;
    }

    /** The end of `viewResults`: a reply replaces the results; a failure
        closes the modal and leaves the results as they were. Loading is over
        either way. */
    method Settle(reply: Option<PollResults>)
      modifies this
      ensures !loading
      ensures data == (if reply.Some? then reply else old(data))
      ensures show == (reply.Some? && old(show))
    {
      if reply.Some? {
        data := reply;
      } else {
        show := false;
      }
      loading := false;
    }

    /** The close button. */
    method Close()
      modifies this
      ensures !show && loading == old(loading) && data == old(data)
    {
      show := false;
    }
  }
}
