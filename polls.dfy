/**
  The pure aggregates the dashboards compute over a poll list: which polls
  are active or closed at the current time, and a poll's total vote count.
 */
module Polls {
  import opened Domain

  /** `new Date() < new Date(p.endTime)`. */
  predicate IsActive(p: Poll, now: int) {
    Before(At(now), p.endTime)
  }

  /** `new Date() >= new Date(p.endTime)`. */
  predicate IsClosed(p: Poll, now: int) {
    AtOrAfter(At(now), p.endTime)
  }

  /** `polls.filter(p => new Date() < new Date(p.endTime))`. */
  function ActivePolls(polls: seq<Poll>, now: int): (r: seq<Poll>)
    ensures |r| <= |polls|
    ensures forall p :: p in r <==> p in polls && IsActive(p, now)
    decreases |polls|
  {
    if polls == [] then []
    else (if IsActive(polls[0], now) then [polls[0]] else []) + ActivePolls(polls[1..], now)
  }

  /** `polls.filter(p => new Date() >= new Date(p.endTime))`. */
  function ClosedPolls(polls: seq<Poll>, now: int): (r: seq<Poll>)
    ensures |r| <= |polls|
    ensures forall p :: p in r <==> p in polls && IsClosed(p, now)
    decreases |polls|
  {
    if polls == [] then []
    else (if IsClosed(polls[0], now) then [polls[0]] else []) + ClosedPolls(polls[1..], now)
  }

  /** A poll whose end time parsed is either active or closed, never both;
      one at the exact end instant is already closed. */
  lemma ActiveOrClosed(p: Poll, now: int)
    ensures !(IsActive(p, now) && IsClosed(p, now))
    ensures p.endTime.At? ==> (IsActive(p, now) <==> !IsClosed(p, now))
    ensures p.endTime == At(now) ==> IsClosed(p, now)
    ensures p.endTime == InvalidDate ==> !IsActive(p, now) && !IsClosed(p, now)
  {
  }

  /** The active filter distributes over concatenation, so it keeps the
      active polls in their original order. */
  lemma {:induction false} ActivePollsAppend(a: seq<Poll>, b: seq<Poll>, now: int)
    ensures ActivePolls(a + b, now) == ActivePolls(a, now) + ActivePolls(b, now)
    decreases |a|
  {
    if a != [] {
      assert (a + b)[1..] == a[1..] + b;
      ActivePollsAppend(a[1..], b, now);
    } else {
      assert a + b == b;
    }
  }

  /** Every poll with a parsed end time is counted exactly once by the
      active and closed stat cards; a poll with an unparsable end time is
      counted by neither, so the counts add up to the list length exactly
      when every end time parsed. */
  lemma {:induction false} ActiveClosedPartition(polls: seq<Poll>, now: int)
    ensures |ActivePolls(polls, now)| + |ClosedPolls(polls, now)| <= |polls|
    ensures |ActivePolls(polls, now)| + |ClosedPolls(polls, now)| == |polls|
        <==> forall k :: 0 <= k < |polls| ==> polls[k].endTime.At?
    decreases |polls|
  {
    if polls != [] {
      var rest := polls[1..];
      ActiveClosedPartition(rest, now);
      ActiveOrClosed(polls[0], now);
      assert forall k :: 1 <= k < |polls| ==> polls[k] == rest[k - 1];
      if forall k :: 0 <= k < |rest| ==> rest[k].endTime.At? {
        assert polls[0].endTime.At? ==> forall k :: 0 <= k < |polls| ==> polls[k].endTime.At?;
      }
    }
  }

  /** Reference meaning of a poll's total: the sum of its options' vote counts. */
  function VoteSum(options: seq<PollOption>): int
    decreases |options|
  {
    if options == [] then 0 else options[0].voteCount + VoteSum(options[1..])
  }

  /** `options.reduce((sum, opt) => sum + opt.voteCount, acc)`: a left fold. */
  function FoldVotes(acc: int, options: seq<PollOption>): int
    decreases |options|
  {
    if options == [] then acc else FoldVotes(acc + options[0].voteCount, options[1..])
  }

  /** The "Total Votes" a Staff poll card shows. */
  function TotalVotes(p: Poll): int {
    FoldVotes(0, p.options)
  }

  /** The reduce adds every option's vote count to its starting value. */
  lemma {:induction false} FoldVotesIsSum(acc: int, options: seq<PollOption>)
    ensures FoldVotes(acc, options) == acc + VoteSum(options)
    decreases |options|
  {
    if options != [] {
      FoldVotesIsSum(acc + options[0].voteCount, options[1..]);
    }
  }

  /** A poll's total is the sum of its options' counts; it is zero for a poll
      no one voted in and never negative when no count is. */
  lemma TotalVotesIsSum(p: Poll)
    ensures TotalVotes(p) == VoteSum(p.options)
    ensures (forall k :: 0 <= k < |p.options| ==> p.options[k].voteCount >= 0) ==> TotalVotes(p) >= 0
    ensures (forall k :: 0 <= k < |p.options| ==> p.options[k].voteCount == 0) ==> TotalVotes(p) == 0
  {
    FoldVotesIsSum(0, p.options);
    SumBounds(p.options);
  }

  lemma {:induction false} SumBounds(options: seq<PollOption>)
    ensures (forall k :: 0 <= k < |options| ==> options[k].voteCount >= 0) ==> VoteSum(options) >= 0
    ensures (forall k :: 0 <= k < |options| ==> options[k].voteCount == 0) ==> VoteSum(options) == 0
    decreases |options|
  {
    if options != [] {
      SumBounds(options[1..]);
      assert forall k :: 1 <= k < |options| ==> options[k] == options[1..][k - 1];
    }
  }
}
